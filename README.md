# PF Sandbox: game stepper, input history and menu screens

This project models the frame-by-frame core of PF Sandbox, a platform-fighter
sandbox, and proves properties of that model. It has three parts.

- **Input** (`input.dfy`) models `Input` from `src/input.rs`:
  - the current controller sample and the recorded per-frame input history;
  - how a frame's `PlayerInput` (button presses as rising edges, axis
    values and their differences) comes from two consecutive history entries;
  - the start-button edge detector.
- **Game** (`game.dfy`) models `Game` from `src/game.rs`:
  - construction (players spawned round the stage's spawn points; the
    fighter list repeated to cover every controller);
  - the `step` dispatcher and the local, netplay, paused, replay-forwards,
    replay-backwards and results states;
  - the snapshot history of players (truncated when the game moves on from an
    earlier frame, extended with one snapshot per simulated frame);
  - jumping to a saved frame, the per-player debug toggles and the time limit.
- **Menu** (`ticker.dfy`, `menu.dfy`) models parts of `pf_sandbox/src/menu.rs`:
  - `MenuTicker`, the cursor with accelerating key-repeat;
  - the fighter-select screen: per-player selections, the hold-b back
    counter, going on to stage select;
  - the transitions of the stage-select and results screens;
  - `MenuState::character_select`.

Objects whose fields the source updates in place (`Input`, `Game`, `Menu`,
`MenuTicker`) are Dafny classes. Their methods are proved against pure
functions of the old state (`Recorded`, `KeptHistory`, `SteppedPlayers`,
`Ticked`, `SelectionAfter`, `FighterSelectNext`, `StageSelectNext`,
`ToggledDebug`, `EditFocus`), and properties of those functions are proved as
lemmas.

`Game.Game.Synced` is the invariant that `Game.Game.Step` keeps. It relates
the current frame, the snapshot history and the input history, so that every
`unwrap`, index and `usize` subtraction on the paths that `step` takes stays
in range for as long as the game runs.

Notes on the code:

- After frame `f >= 1` is recorded, the input history holds `f` entries
  (`Input.Recorded`). Frame `f` is read from entry `f - 1`, and frames 0 and
  -1 read the all-unplugged sample, so frames 0 and 1 are both written to
  entry 0. The comment at src/input.rs:8, which puts frame 0 at index 2,
  does not match this.
- The snapshot history and the input history do not keep a fixed offset.
  Local play, and a Space step on the pause screen, leave one more snapshot
  than input entries. Resuming with start does not move the frame counter
  (src/game.rs:176-178), so the next `step_local` (src/game.rs:75-93)
  simulates the paused frame a second time and appends a second snapshot for
  it. Space after a J rewind does the same: the snapshot of the frame stepped
  back from is kept and another is appended. Either way there are then two
  more snapshots than input entries, and snapshot `f` no longer belongs to
  frame `f`. `Game.Game.Synced` states the bounds the code keeps:
  `|inputs| <= |snapshots| + 1` and `|snapshots| <= |inputs| + 2`.
- A game fresh from `Game::new` may start on an input history that the menu
  recorded (pf_sandbox/src/menu.rs:210-212); nothing in the modelled code
  resets it.
  `Synced` allows any such history until the first frame is simulated, and
  that first frame, frame 0, cuts it back to one entry. `Game.NewGameSynced`
  shows that a fresh game is in step with it, provided every sample has one
  entry per controller.
- Reading past the end of a history is not clamped. `unwrap` on `None`
  panics. The `usize` subtraction in `last_frame` on an empty history panics
  in a debug build and wraps in a release build. The model makes every such
  read a precondition, and `Synced` shows that `step` never reaches one.

## Model

| member | source | states |
|---|---|---|
| `Input.EmptyController` | src/input.rs:204-230 | an empty controller is unplugged, holds no button and has every axis at 0 |
| `Input.EmptyPlayerInput` | src/input.rs:232-258 | the empty player input is unplugged, with no button held or pressed and every value and difference 0 |
| `Input.PlayerInputOf` | src/input.rs:116-147 | a player input is plugged in exactly when its controller is; an unplugged controller gives the empty input |
| `Input.ButtonIsEdge` | src/input.rs:122-133 | a button's value is "held now"; its press is "held now and not held on the previous frame" |
| `Input.AxisIsDelta` | src/input.rs:135-141 | a stick or trigger reports its current value and its difference from the previous frame (0 when unplugged) |
| `Input.Recorded` | src/input.rs:100-106 | recording frame `f` keeps the first `f - 1` entries and appends the sample, so the history then has `f` entries (1 for frame 0); earlier entries are unchanged |
| `Input.Input.constructor` | src/input.rs:47-61 | a new `Input` has four empty controllers per adapter, no sample, no history, and start not held |
| `Input.Input.Update` | src/input.rs:82-91 | the current sample becomes the controllers just read |
| `Input.Input.ResetHistory` | src/input.rs:94-96 | the input history becomes empty |
| `Input.Input.GameUpdate` | src/input.rs:100-106 | the history becomes `Recorded(old history, sample, frame)` |
| `Input.Input.Players` | src/input.rs:110-149 | returns the player inputs built from entries `frame - 1` and `frame - 2` (the empty sample before the first) |
| `Input.Input.GetInputs` | src/input.rs:151-164 | frames 0 and -1 read the all-unplugged sample; when every recorded sample has one entry per controller, so does every frame read |
| `Input.Input.StartHeld` | src/input.rs:177-184 | true exactly when some controller in the current sample holds start |
| `Input.Input.StartPressed` | src/input.rs:170-175 | true exactly when start is held now and was not held at the previous call; remembers the current state |
| `Input.Input.LastFrame` | src/input.rs:187-189 | the last frame is the history length minus one |
| `Input.FrameZeroIsNeutral` | src/input.rs:151-164 | frame 0 is always readable and gives every player the empty input |
| `Input.UniformFramesDefined` | src/input.rs:151-164 | every frame up to the history length is readable and gives one input per controller |
| `Input.PressIsRisingEdge` | src/input.rs:113-133 | on any recorded frame, a held button's press is exactly "not held on the frame before" |
| `Input.FirstFrameDiffIsValue` | src/input.rs:135-141 | on frame 1 every axis difference equals its value, because frame 0 is neutral |
| `Input.FramesBeforeLastDefined` | src/input.rs:187-189 | every frame before `last_frame` can be replayed |
| `Input.RecordedReadBack` | src/input.rs:100-106 | after frame `f` is recorded (`1 <= f <=` length + 1), reading frame `f` gives the current sample, and every earlier frame reads as before |
| `Ticker.NewTicker` | pf_sandbox/src/menu.rs:347-355 | a new ticker is at item 0, armed to fire at once, with `cursorMax` one below the item count (0 when empty) |
| `Ticker.Ticked` | pf_sandbox/src/menu.rs:357-378 | a tick after a reset fires and starts the 20-frame wait; otherwise it fires exactly when the countdown runs out, then loads the next duration |
| `Ticker.MovedUp` | pf_sandbox/src/menu.rs:380-389 | on a firing tick the cursor moves up one, wrapping from 0 to `cursorMax`; otherwise it stays |
| `Ticker.MovedDown` | pf_sandbox/src/menu.rs:391-400 | on a firing tick the cursor moves down one, wrapping from `cursorMax` to 0; otherwise it stays |
| `Ticker.WithReset` | pf_sandbox/src/menu.rs:402-404 | a reset only arms the ticker; nothing else changes |
| `Ticker.CountdownFires` | pf_sandbox/src/menu.rs:366-376 | a countdown of `k` stays quiet for `k - 1` ticks and fires on the `k`-th |
| `Ticker.Gap` | pf_sandbox/src/menu.rs:358 | every repeat gap is at least 5 frames, and exactly 5 once the schedule is exhausted |
| `Ticker.FirstTickStartsSchedule` | pf_sandbox/src/menu.rs:359-364 | after a reset the first tick fires at once and starts the repeat schedule |
| `Ticker.HeldRepeatSchedule` | pf_sandbox/src/menu.rs:357-378 | while held, repeats fire after 20, 20, 12, 10, 8, 6, 5, 5, ... ticks |
| `Ticker.MenuTicker.constructor` | pf_sandbox/src/menu.rs:347-355 | the object starts in `NewTicker(itemCount)` |
| `Ticker.MenuTicker.Tick` | pf_sandbox/src/menu.rs:357-378 | the new state and the result are those of `Ticked`; the invariant is kept |
| `Ticker.MenuTicker.Up` | pf_sandbox/src/menu.rs:380-389 | the new state is `MovedUp` of the old one |
| `Ticker.MenuTicker.Down` | pf_sandbox/src/menu.rs:391-400 | the new state is `MovedDown` of the old one |
| `Ticker.MenuTicker.Reset` | pf_sandbox/src/menu.rs:402-404 | the new state is `WithReset` of the old one |
| `Menu.CharacterSelectStart` | pf_sandbox/src/menu.rs:313-315 | the fighter-select screen starts with its back counter at 0 |
| `Menu.SelectionAfter` | pf_sandbox/src/menu.rs:89-99 | a b press clears the selection and beats a; an a press selects the fighter under the cursor if there is one; nothing else changes it |
| `Menu.Steered` | pf_sandbox/src/menu.rs:101-109 | up beats down; with neither held the cursor's repeat is reset |
| `Menu.Steer` | pf_sandbox/src/menu.rs:101-109 | the cursor object moves to `Steered` of its old state and stays valid |
| `Menu.FighterCursorInRange` | pf_sandbox/src/menu.rs:137-140 | a cursor with the fighter list's `cursorMax` is below the fighter count, so an a press without b selects the fighter under it; `Menu.Menu.Valid` keeps that `cursorMax` for every entry |
| `Menu.FighterSelectNext` | pf_sandbox/src/menu.rs:113-129 | start with a fighter available goes to stage select; otherwise holding b past `back_counter_max` goes to package select; holding b counts up; releasing b resets the counter |
| `Menu.HoldingBackLeaves` | pf_sandbox/src/menu.rs:119-126 | holding b from counter `c` stays on the screen while `c + n <= max + 1` and leaves on the next frame |
| `Menu.StageSelectNext` | pf_sandbox/src/menu.rs:155-160 | start or a starts the game exactly when there is a stage; otherwise b goes back to fighter select |
| `Menu.Menu.constructor` | pf_sandbox/src/menu.rs:50-60 | a new menu has the given state, no selections, no stage cursor, and a back-counter limit of 90 |
| `Menu.Menu.AddRemoveFighterSelections` | pf_sandbox/src/menu.rs:62-76 | only when there are no selections yet, one unselected entry with a fresh cursor is created per controller |
| `Menu.Menu.StepSelection` | pf_sandbox/src/menu.rs:86-110 | one player's entry takes its plugged-in flag, `SelectionAfter` and `Steered`; with a fighter available, an a press without b selects the fighter under the old cursor; every other entry is unchanged |
| `Menu.Menu.RecordSelection` | pf_sandbox/src/menu.rs:87-99 | one entry takes its plugged-in flag and `SelectionAfter`; no other entry and no cursor changes; with a fighter available, an a press without b selects the fighter under the cursor |
| `Menu.Menu.UpdateSelections` | pf_sandbox/src/menu.rs:84-111 | entries and inputs are paired by position up to the shorter list; entries without an input are unchanged; only the fighter cursors may move, so the stage cursor keeps its state |
| `Menu.Menu.EndFighterSelectFrame` | pf_sandbox/src/menu.rs:113-134 | the screen changes as `FighterSelectNext` says; the stage cursor is created only on the first visit to stage select |
| `Menu.Menu.StepFighterSelect` | pf_sandbox/src/menu.rs:78-135 | the whole fighter-select frame: entries created, every entry updated, and the screen changed as `FighterSelectNext` says; on other screens only entry creation happens; existing entries without an input and the stage cursor are left as they were |
| `Menu.Menu.StepStageSelect` | pf_sandbox/src/menu.rs:142-161 | every controller steers the one stage cursor; the screen changes as `StageSelectNext` says |
| `Menu.Menu.StepResults` | pf_sandbox/src/menu.rs:204-208 | start or an a press returns to fighter select with a fresh back counter; otherwise the screen stays |
| `Game.SpawnPlayers` | src/game.rs:26-32 | player `i` spawns at spawn point `i mod n` with the package's stock count |
| `Game.FillFighters` | src/game.rs:34-42 | the selected fighters are kept and then repeated in order until every controller has one |
| `Game.EditFocus` | src/game.rs:107-143 | grave focuses the stage; digit `k` focuses player `k` (shift) or their fighter, if that player exists; otherwise the focus stays and still names an existing player |
| `Game.ToggledDebug` | src/game.rs:281-335 | F12 clears every debug flag; F11 sets them all; otherwise each flag flips exactly when its key (F1-F9; F2 with shift for the input-diff flag) is pressed |
| `Game.DebugTogglesCancel` | src/game.rs:285-316 | without F11 or F12, toggling twice with the same keys restores the flags |
| `Game.DebugPresetsSettle` | src/game.rs:318-335 | with F11 or F12, toggling again changes nothing |
| `Game.SteppedPlayers` | src/game.rs:391-400 | each player is stepped with the input of its controller and its own fighter; the number of players is unchanged |
| `Game.KeptHistory` | src/game.rs:76-79 | moving on from frame `f` keeps exactly the first `f + 1` snapshots |
| `Game.TimeUpFrom` | src/game.rs:402-404 | the time is up on frame `60 * (time_limit + 1)` and on every later frame, and on no earlier one |
| `Game.Game.constructor` | src/game.rs:25-57 | a new game starts at frame 0 with no snapshots, one player per controller, the fighters filled to cover every controller, and local or netplay state |
| `Game.Game.SetPaused` | src/game.rs:425-429 | the game pauses and the selection is cleared |
| `Game.Game.PauseOnRequest` | src/game.rs:87-92 | a start press or Space pauses and clears the selection; otherwise nothing changes |
| `Game.Game.StepGame` | src/game.rs:391-407 | the players become `SteppedPlayers`; the state becomes Results exactly when the time is up |
| `Game.Game.ForgetFuture` | src/game.rs:76-79 | the snapshot history is cut back to `KeptHistory` |
| `Game.Game.RecordAndSimulate` | src/game.rs:81-84 | the frame's input is recorded, then the players are stepped with that frame's inputs |
| `Game.Game.StepLocal` | src/game.rs:75-93 | later snapshots are dropped, the frame is recorded and simulated, and a snapshot is appended; a pause request freezes the frame counter, otherwise it advances by one; the bookmark and the edit focus are kept |
| `Game.Game.SimulateLocalFrame` | src/game.rs:75-84 | snapshots past the current frame are dropped, the current sample is recorded as this frame and simulated, and the new snapshot is appended; the frame counter does not move |
| `Game.Game.StepNetplay` | src/game.rs:95-102 | like a local frame, without dropping snapshots or pausing; the frame counter always advances; the start latch, the selection, the bookmark and the edit focus are kept |
| `Game.Game.StepReplayForwards` | src/game.rs:339-356 | before the last recorded frame, it replays that frame's inputs and advances (H reverses, a pause request pauses); at the end of the recording it pauses; neither history changes, nor the bookmark or the edit focus |
| `Game.Game.StepReplayBackwards` | src/game.rs:359-379 | it restores the previous frame's snapshot, or pauses at frame 0; L switches to replay-forwards, and a pause request pauses; neither history changes, nor the bookmark or the edit focus |
| `Game.Game.JumpFrame` | src/game.rs:381-389 | when the saved frame has a later snapshot, that frame's snapshot is restored; otherwise nothing changes |
| `Game.Game.SetDebug` | src/game.rs:281-335 | only the focused player's debug flags change, as `ToggledDebug` says |
| `Game.Game.DebugFocused` | src/game.rs:180-276 | the given focus becomes the edit focus, and the debug keys act on the focused player (fighter or player focus) as `ToggledDebug` says; the stage focus changes no one |
| `Game.Game.StepFromPause` | src/game.rs:165-168 | Space moves the counter on and simulates that frame as local play does: its sample is recorded, the players step with its inputs, the snapshots up to it are kept and the new one appended; the game stays paused with the selection cleared |
| `Game.Game.FlowPlayers` | src/game.rs:152-178 | whichever flow key is pressed, the number of players is unchanged |
| `Game.Game.PauseFlowControl` | src/game.rs:152-178 | the first of J, K, H, L, Space, U, I acts (J and K as the replays do, Space as `StepFromPause`), otherwise a start press resumes; only Space changes the histories and only U the bookmark; the players are those of `FlowPlayers`; `Synced` is kept |
| `Game.Game.PauseKeys` | src/game.rs:158-178 | H and L start a replay, U bookmarks the current frame, I jumps to the bookmark, and otherwise a start press resumes local play; the histories are unchanged |
| `Game.Game.StepPause` | src/game.rs:104-277 | the edit focus moves as `EditFocus` says, the flow keys act as in `PauseFlowControl`, then the debug keys toggle the focused player's flags; `Synced` is kept |
| `Game.Game.Step` | src/game.rs:59-72 | each state's frame has the effect its own step states (`StepLocal`, `StepNetplay`, the two replays, `StepPause`), including what that step leaves alone; Results changes nothing; every step keeps `Valid` and `Synced`, so no later step reads past a history |
| `Game.NewGameSynced` | src/game.rs:25-57 | a new local or netplay game at frame 0 with no snapshots is in step with any input history whose samples have one entry per controller |
| `Game.PauseRewindReplay` | src/game.rs:339-379 | a local game that pauses with Space on frame `c >= 1`, then steps back with J and forward with K, ends paused on frame `c - 1` with `c` inputs recorded: K does not undo J |

## Left out

- USB and GameCube-adapter I/O, and the device part of `Input::new`. The
  controller sample is a parameter of `Input.Input.Update`.
- Stick and trigger filtering (`stick_filter`, `trigger_filter`, `abs_min`).
  Axis values are reals read from the sample as they are.
- Floating point in general. Stick values are `real`s, and the menu's
  "stick past 0.4" test is a boolean in `Menu.MenuInput`.
- `Player::step`, `Player::new` and the fighter data. They are parameters
  (`Game.Simulate`, `Game.Spawn`) and the player body is an opaque type, so
  nothing about the physics is modelled. The stage is not passed to the
  simulation.
- `DebugPlayer::default()` is not part of this model. `Game.DefaultDebug`
  takes it to be all flags off.
- Mouse selection of collision boxes in the fighter editor, and the N/M frame
  add/delete keys. The model only clears the selection where the code does.
- Package save and load (S and R keys). They are I/O.
- `debug_output`, `debug_output_this_step` and `render`. They only produce
  output.
- `step_package_select`, `Menu::step` (its dispatch and `current_frame`),
  `graphics_message`, `reclaim` and `PackageHolder`. The held package is
  given by its fighter and stage counts, and package names are a parameter.
- The menu's `input[0]`-style indexing into controller sequences. Each
  controller's menu-relevant buttons are given as a `Menu.MenuInput`.
- Game.Game.Step: does not state a round trip between replaying backwards and
  forwards, nor that a replay reproduces the recorded game, because the code
  does neither. Snapshot `f` is taken after frame `f` is simulated, so J
  restores the state after frame `f - 1`, and K then simulates frame `f - 1`
  again on it (src/game.rs:341-351, 359-365): that frame's inputs are applied
  twice. K also replays only frames before `last_frame`, so after a local
  pause J followed by K stays on the earlier frame (`Game.PauseRewindReplay`).
  After a start resume, or a Space step following J, snapshot `f` no longer
  belongs to frame `f` at all.
