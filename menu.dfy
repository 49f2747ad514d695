/**
  The fighter-select, stage-select and results screens of the menu
  (pf_sandbox/src/menu.rs): per-player selections with their cursors, the
  hold-b-to-go-back counter, and the transitions between screens.
*/
module Menu {
  import opened Wrappers
  import opened Ticker
  import Input

  /** What the menu reads of one controller on one frame. `upHeld` stands for
      "stick pushed past 0.4 up, or d-pad up held", `downHeld` likewise down. */
  datatype MenuInput = MenuInput(
    pluggedIn: bool,
    aPress: bool,
    bPress: bool,
    bHeld: bool,
    upHeld: bool,
    downHeld: bool)

  /** A finished game's record, kept by the results screen; opaque here. */
  type GameResult

  /** One player's fighter selection and cursor (the `CharacterSelect` struct). */
  datatype PlayerSelection = PlayerSelection(pluggedIn: bool, selection: Option<nat>, ticker: MenuTicker)

  datatype MenuState =
    | CharacterSelect(backCounter: nat)
    | StageSelect
    | GameResults(results: seq<GameResult>)
    | SetRules
    | PackageSelect(packageNames: seq<string>, packageTicker: MenuTicker)
    | BrowsePackages
    | CreatePackage
    | CreateFighter
    | StartGame

  /** `MenuState::character_select`: the fighter-select screen with a fresh back counter. */
  function CharacterSelectStart(): (s: MenuState)
    ensures s.CharacterSelect? && s.backCounter == 0
  {
    MenuState.CharacterSelect(0)
  }

  // ---------------------------------------------------------------------
  // Per-player selection
  // ---------------------------------------------------------------------

  /** A player's selection after one frame: b clears it and wins over a; a
      selects the fighter under the cursor, but only if there is one there. */
  function SelectionAfter(selection: Option<nat>, cursor: nat, fighterCount: nat, inp: MenuInput)
    : (r: Option<nat>)
    ensures inp.bPress ==> r == None
    ensures !inp.bPress && inp.aPress && cursor < fighterCount ==> r == Some(cursor)
    ensures r != selection ==> inp.bPress || (inp.aPress && r == Some(cursor))
    ensures r.Some? && r != selection ==> r.value < fighterCount
  {
    if inp.bPress then None
    else if inp.aPress then
      if cursor < fighterCount then Some(cursor) else selection
    else selection
  }

  /** The cursor move of one frame: up wins over down; neither resets the repeat. */
  function Steered(t: TickerState, up: bool, down: bool): (r: TickerState)
    requires Wf(t)
    ensures Wf(r) && r.cursorMax == t.cursorMax
    ensures up ==> r == MovedUp(t)
    ensures !up && down ==> r == MovedDown(t)
    ensures !up && !down ==> r == WithReset(t)
  {
    if up then MovedUp(t) else if down then MovedDown(t) else WithReset(t)
  }

  /** Moves a cursor as `Steered` says. */
  method Steer(t: MenuTicker, up: bool, down: bool)
    requires t.Valid()
    modifies t
    ensures t.Valid() && t.Model() == Steered(old(t.Model()), up, down)
  {
    if up {
      t.Up();
    } else if down {
      t.Down();
    } else {
      t.Reset();
    }
  }

  /** A fighter-select cursor never leaves the fighter list, so while there is
      a fighter an a press (without b) always selects the one under it. */
  lemma FighterCursorInRange(t: TickerState, fighterCount: nat, selection: Option<nat>, inp: MenuInput)
    requires Wf(t) && t.cursorMax == NewTicker(fighterCount).cursorMax
    requires fighterCount > 0
    ensures t.cursor < fighterCount
    ensures !inp.bPress && inp.aPress ==> SelectionAfter(selection, t.cursor, fighterCount, inp) == Some(t.cursor)
  {
  }

  // ---------------------------------------------------------------------
  // Leaving the fighter-select screen
  // ---------------------------------------------------------------------

  datatype FighterSelectExit = ToStageSelect | ToPackageSelect | StayCounting(backCounter: nat)

  /** The end of a fighter-select frame: start (with a fighter to play) goes to
      stage select; otherwise holding b counts up, and once the counter has
      passed `backCounterMax` the menu goes back to package select; releasing
      b resets the counter. */
  function FighterSelectNext(backCounter: nat, backCounterMax: nat, startPressed: bool,
                             fighterCount: nat, anyBHeld: bool): (r: FighterSelectExit)
    ensures r == ToStageSelect <==> startPressed && fighterCount > 0
    ensures r == ToPackageSelect <==>
              !(startPressed && fighterCount > 0) && anyBHeld && backCounter > backCounterMax
    ensures r.StayCounting? && anyBHeld ==> r.backCounter == backCounter + 1
    ensures r.StayCounting? && !anyBHeld ==> r.backCounter == 0
    ensures r.StayCounting? ==> r.backCounter <= backCounterMax + 1
  {
    if startPressed && fighterCount > 0 then ToStageSelect
    else if anyBHeld then
      if backCounter > backCounterMax then ToPackageSelect else StayCounting(backCounter + 1)
    else StayCounting(0)
  }

  /** `n` consecutive frames with b held and no start press. */
  function HoldingBack(backCounter: nat, backCounterMax: nat, fighterCount: nat, n: nat): FighterSelectExit
    decreases n
  {
    if n == 0 then StayCounting(backCounter)
    else
      match FighterSelectNext(backCounter, backCounterMax, false, fighterCount, true)
      case StayCounting(c) => HoldingBack(c, backCounterMax, fighterCount, n - 1)
      case exit => exit
  }

  /** Holding b from a counter of `c` stays on the screen while the counter
      can still reach `backCounterMax + 1`, and leaves on the frame after; from
      a released b (counter 0) that is `backCounterMax + 2` frames. */
  lemma {:induction false} HoldingBackLeaves(c: nat, backCounterMax: nat, fighterCount: nat, n: nat)
    requires c <= backCounterMax + 1
    ensures HoldingBack(c, backCounterMax, fighterCount, n)
            == if c + n <= backCounterMax + 1 then StayCounting(c + n) else ToPackageSelect
    decreases n
  {
    if n > 0 && c <= backCounterMax {
      HoldingBackLeaves(c + 1, backCounterMax, fighterCount, n - 1);
    }
  }

  // ---------------------------------------------------------------------
  // Stage select and results
  // ---------------------------------------------------------------------

  datatype StageSelectExit = ToStartGame | BackToCharacterSelect | StayOnStage

  /** Start or an a press starts the game, but only if there is a stage;
      otherwise a b press goes back to fighter select. */
  function StageSelectNext(startPressed: bool, anyAPress: bool, anyBPress: bool, stageCount: nat)
    : (r: StageSelectExit)
    ensures r == ToStartGame <==> (startPressed || anyAPress) && stageCount > 0
    ensures r == BackToCharacterSelect <==> !((startPressed || anyAPress) && stageCount > 0) && anyBPress
  {
    if (startPressed || anyAPress) && stageCount > 0 then ToStartGame
    else if anyBPress then BackToCharacterSelect
    else StayOnStage
  }

  predicate AnyUp(inputs: seq<MenuInput>) { exists i :: 0 <= i < |inputs| && inputs[i].upHeld }
  predicate AnyDown(inputs: seq<MenuInput>) { exists i :: 0 <= i < |inputs| && inputs[i].downHeld }
  predicate AnyAPress(inputs: seq<MenuInput>) { exists i :: 0 <= i < |inputs| && inputs[i].aPress }
  predicate AnyBPress(inputs: seq<MenuInput>) { exists i :: 0 <= i < |inputs| && inputs[i].bPress }
  predicate AnyBHeld(inputs: seq<MenuInput>) { exists i :: 0 <= i < |inputs| && inputs[i].bHeld }

  // ---------------------------------------------------------------------
  // The menu object
  // ---------------------------------------------------------------------

  class Menu {
    var state: MenuState
    var fighterSelections: seq<PlayerSelection>
    /** `Option<MenuTicker>`: created on the first visit to stage select. */
    var stageTicker: MenuTicker?
    const backCounterMax: nat
    /** The sizes of the held package's fighter and stage lists. */
    const fighterCount: nat
    const stageCount: nat

    /** The fighter cursors, which fighter select moves. */
    ghost function FighterTickers(): set<MenuTicker>
      reads this`fighterSelections
    {
      set i | 0 <= i < |fighterSelections| :: fighterSelections[i].ticker
    }

    ghost function Tickers(): set<MenuTicker>
      reads this
    {
      FighterTickers() + (if stageTicker == null then {} else {stageTicker})
    }

    /** One player's cursor ranges over the fighters, and the selection names one. */
    ghost predicate EntryValid(entry: PlayerSelection)
      reads entry.ticker
    {
      && entry.ticker.Valid()
      && entry.ticker.cursorMax == NewTicker(fighterCount).cursorMax
      && (entry.selection.Some? ==> entry.selection.value < fighterCount)
    }

    /** Every cursor is valid and its own object, each fighter cursor ranges
        over the fighters and the stage cursor over the stages, and every
        selection names a fighter. */
    ghost predicate Valid()
      reads this, Tickers()
    {
      && (forall i :: 0 <= i < |fighterSelections| ==> EntryValid(fighterSelections[i]))
      && (forall i, j :: 0 <= i < j < |fighterSelections| ==>
            fighterSelections[i].ticker != fighterSelections[j].ticker)
      && (stageTicker != null ==>
            && stageTicker.Valid()
            && stageTicker.cursorMax == NewTicker(stageCount).cursorMax
            && forall i :: 0 <= i < |fighterSelections| ==> fighterSelections[i].ticker != stageTicker)
    }

    /** `Menu::new`, with the held package given by its fighter and stage counts. */
    constructor (initial: MenuState, fighters: nat, stages: nat)
      ensures Valid()
      ensures state == initial && fighterSelections == [] && stageTicker == null
      ensures backCounterMax == 90 && fighterCount == fighters && stageCount == stages
    {
      state := initial;
      fighterSelections := [];
      stageTicker := null;
      backCounterMax := 90;
      fighterCount := fighters;
      stageCount := stages;
    }

    /** `add_remove_fighter_selections`: on the first fighter-select frame,
        one unselected entry with a fresh cursor per controller. */
    method AddRemoveFighterSelections(inputs: seq<MenuInput>)
      requires Valid()
      modifies this`fighterSelections
      ensures Valid()
      ensures old(|fighterSelections|) != 0 ==> fighterSelections == old(fighterSelections)
      ensures old(|fighterSelections|) == 0 ==>
                && |fighterSelections| == |inputs|
                && forall i :: 0 <= i < |inputs| ==>
                     && fighterSelections[i].pluggedIn == inputs[i].pluggedIn
                     && fighterSelections[i].selection == None
                     && fresh(fighterSelections[i].ticker)
                     && fighterSelections[i].ticker.Model() == NewTicker(fighterCount)
    {
      if |fighterSelections| == 0 {
        var i := 0;
        while i < |inputs|
          invariant 0 <= i <= |inputs| && |fighterSelections| == i
          invariant forall k :: 0 <= k < i ==>
                      && fighterSelections[k].pluggedIn == inputs[k].pluggedIn
                      && fighterSelections[k].selection == None
                      && fresh(fighterSelections[k].ticker)
                      && fighterSelections[k].ticker.Model() == NewTicker(fighterCount)
          invariant forall k, j :: 0 <= k < j < i ==>
                      fighterSelections[k].ticker != fighterSelections[j].ticker
        {
          var ticker := new MenuTicker(fighterCount);
          fighterSelections := fighterSelections + [PlayerSelection(inputs[i].pluggedIn, None, ticker)];
          i := i + 1;
        }
      }
    }

    /** One player's entry on one frame of `step_fighter_select`: the plugged-in
        flag, the selection (read with the cursor before it moves), then the
        cursor move. Every other entry and cursor is left alone. */
    method StepSelection(i: nat, inp: MenuInput)
      requires Valid() && i < |fighterSelections|
      modifies this`fighterSelections, fighterSelections[i].ticker
      ensures Valid()
      ensures |fighterSelections| == old(|fighterSelections|)
      ensures fighterSelections[i].ticker == old(fighterSelections[i].ticker)
      ensures fighterSelections[i].pluggedIn == inp.pluggedIn
      ensures fighterSelections[i].selection
              == SelectionAfter(old(fighterSelections[i].selection),
                                old(fighterSelections[i].ticker.cursor), fighterCount, inp)
      ensures fighterSelections[i].ticker.Model()
              == Steered(old(fighterSelections[i].ticker.Model()), inp.upHeld, inp.downHeld)
      ensures fighterCount > 0 && !inp.bPress && inp.aPress ==>
                fighterSelections[i].selection == Some(old(fighterSelections[i].ticker.cursor))
      ensures forall k :: 0 <= k < |fighterSelections| && k != i ==>
                fighterSelections[k] == old(fighterSelections[k])
    {
      var t := fighterSelections[i].ticker;
      RecordSelection(i, inp);
      Steer(t, inp.upHeld, inp.downHeld);
      assert EntryValid(fighterSelections[i]);
      assert forall k :: 0 <= k < |fighterSelections| && k != i ==>
               fighterSelections[k] == old(fighterSelections[k]) && fighterSelections[k].ticker != t;
    }

    /** The entry half of one fighter-select update: the plugged-in flag is
        copied and the selection made or dropped; the cursor is untouched. */
    method RecordSelection(i: nat, inp: MenuInput)
      requires Valid() && i < |fighterSelections|
      modifies this`fighterSelections
      ensures Valid()
      ensures fighterSelections
              == old(fighterSelections[i := fighterSelections[i].(
                   pluggedIn := inp.pluggedIn,
                   selection := SelectionAfter(fighterSelections[i].selection,
                                               fighterSelections[i].ticker.cursor, fighterCount, inp))])
      ensures fighterCount > 0 && !inp.bPress && inp.aPress ==>
                fighterSelections[i].selection == Some(old(fighterSelections[i].ticker.cursor))
    {
      var entry := fighterSelections[i];
      if fighterCount > 0 {
        FighterCursorInRange(entry.ticker.Model(), fighterCount, entry.selection, inp);
      }
      var selection := SelectionAfter(entry.selection, entry.ticker.cursor, fighterCount, inp);
      fighterSelections := fighterSelections[i := entry.(pluggedIn := inp.pluggedIn, selection := selection)];
    }

    /** The selection loop of `step_fighter_select`: entries and inputs are
        paired up by position, as far as the shorter of the two goes. */
    method UpdateSelections(inputs: seq<MenuInput>)
      requires Valid()
      modifies this`fighterSelections, FighterTickers()
      ensures Valid() && stageTicker == old(stageTicker)
      ensures stageTicker != null ==> stageTicker.Model() == old(stageTicker.Model())
      ensures |fighterSelections| == old(|fighterSelections|)
      ensures forall k :: 0 <= k < |fighterSelections| ==>
                fighterSelections[k].ticker == old(fighterSelections[k].ticker)
      ensures forall k :: 0 <= k < |fighterSelections| && k < |inputs| ==>
                && fighterSelections[k].pluggedIn == inputs[k].pluggedIn
                && fighterSelections[k].selection
                   == SelectionAfter(old(fighterSelections[k].selection),
                                     old(fighterSelections[k].ticker.cursor), fighterCount, inputs[k])
                && fighterSelections[k].ticker.Model()
                   == Steered(old(fighterSelections[k].ticker.Model()), inputs[k].upHeld, inputs[k].downHeld)
      ensures forall k :: |inputs| <= k < |fighterSelections| ==>
                && fighterSelections[k] == old(fighterSelections[k])
                && fighterSelections[k].ticker.Model() == old(fighterSelections[k].ticker.Model())
    {
      var n := Min(|fighterSelections|, |inputs|);
      var i := 0;
      while i < n
        invariant 0 <= i <= n && Valid() && stageTicker == old(stageTicker)
        invariant |fighterSelections| == old(|fighterSelections|)
        invariant forall k :: 0 <= k < |fighterSelections| ==>
                    fighterSelections[k].ticker == old(fighterSelections[k].ticker)
        invariant forall k :: 0 <= k < i ==>
                    && fighterSelections[k].pluggedIn == inputs[k].pluggedIn
                    && fighterSelections[k].selection
                       == SelectionAfter(old(fighterSelections[k].selection),
                                         old(fighterSelections[k].ticker.cursor), fighterCount, inputs[k])
                    && fighterSelections[k].ticker.Model()
                       == Steered(old(fighterSelections[k].ticker.Model()), inputs[k].upHeld, inputs[k].downHeld)
        invariant forall k :: i <= k < |fighterSelections| ==>
                    && fighterSelections[k] == old(fighterSelections[k])
                    && fighterSelections[k].ticker.Model() == old(fighterSelections[k].ticker.Model())
      {
        StepSelection(i, inputs[i]);
        i := i + 1;
      }
    }

    /** `step_fighter_select`: the selections are created if there are none
        yet; then, on the fighter-select screen, every entry is updated and
        the frame ends as `FighterSelectNext` says. The stage cursor is
        created on the first visit to stage select and kept afterwards. */
    method StepFighterSelect(inputs: seq<MenuInput>, input: Input.Input, packageNames: seq<string>)
      requires Valid()
      modifies this, FighterTickers(), input`prevStart
      ensures Valid()
      // the entries
      ensures old(|fighterSelections|) != 0 ==>
                && |fighterSelections| == old(|fighterSelections|)
                && (forall k :: 0 <= k < |fighterSelections| ==>
                      fighterSelections[k].ticker == old(fighterSelections[k].ticker))
                && forall k :: |inputs| <= k < |fighterSelections| ==>
                     && fighterSelections[k] == old(fighterSelections[k])
                     && fighterSelections[k].ticker.Model() == old(fighterSelections[k].ticker.Model())
      // the stage cursor is not moved
      ensures old(stageTicker) != null ==> old(stageTicker).Model() == old(stageTicker.Model())
      ensures old(|fighterSelections|) == 0 ==>
                && |fighterSelections| == |inputs|
                && forall k :: 0 <= k < |fighterSelections| ==>
                     && fighterSelections[k].pluggedIn == inputs[k].pluggedIn
                     && fresh(fighterSelections[k].ticker)
      ensures old(state).CharacterSelect? ==>
                forall k :: 0 <= k < |fighterSelections| && k < |inputs| ==>
                  && fighterSelections[k].pluggedIn == inputs[k].pluggedIn
                  && fighterSelections[k].selection
                     == SelectionAfter(
                          if old(|fighterSelections|) == 0 then None else old(fighterSelections[k].selection),
                          if old(|fighterSelections|) == 0 then 0 else old(fighterSelections[k].ticker.cursor),
                          fighterCount, inputs[k])
                  && fighterSelections[k].ticker.Model()
                     == Steered(
                          if old(|fighterSelections|) == 0 then NewTicker(fighterCount)
                          else old(fighterSelections[k].ticker.Model()),
                          inputs[k].upHeld, inputs[k].downHeld)
      ensures !old(state).CharacterSelect? ==>
                forall k :: 0 <= k < |fighterSelections| ==>
                  if old(|fighterSelections|) == 0 then
                    fighterSelections[k].selection == None
                    && fighterSelections[k].ticker.Model() == NewTicker(fighterCount)
                  else
                    fighterSelections[k] == old(fighterSelections[k])
                    && fighterSelections[k].ticker.Model() == old(fighterSelections[k].ticker.Model())
      // the screen
      ensures !old(state).CharacterSelect? ==>
                state == old(state) && stageTicker == old(stageTicker) && input.prevStart == old(input.prevStart)
      ensures old(state).CharacterSelect? ==>
                var started := Input.AnyStart(input.currentInputs) && !old(input.prevStart);
                var next := FighterSelectNext(old(state).backCounter, backCounterMax, started,
                                              fighterCount, AnyBHeld(inputs));
                && input.prevStart == Input.AnyStart(input.currentInputs)
                && (next == ToStageSelect ==>
                      && state == StageSelect
                      && (old(stageTicker) != null ==> stageTicker == old(stageTicker))
                      && (old(stageTicker) == null ==>
                            stageTicker != null && fresh(stageTicker)
                            && stageTicker.Model() == NewTicker(stageCount)))
                && (next == ToPackageSelect ==>
                      && state.PackageSelect? && state.packageNames == packageNames
                      && fresh(state.packageTicker)
                      && state.packageTicker.Model() == NewTicker(|packageNames|)
                      && stageTicker == old(stageTicker))
                && (next.StayCounting? ==>
                      state == MenuState.CharacterSelect(next.backCounter) && stageTicker == old(stageTicker))
    {
      AddRemoveFighterSelections(inputs);
      if state.CharacterSelect? {
        UpdateSelections(inputs);
        EndFighterSelectFrame(state.backCounter, inputs, input, packageNames);
      }
    }

    /** The end of a fighter-select frame, from `back_counter` on. */
    method EndFighterSelectFrame(backCounter: nat, inputs: seq<MenuInput>, input: Input.Input,
                                 packageNames: seq<string>)
      requires Valid()
      modifies this`state, this`stageTicker, input`prevStart
      ensures Valid()
      ensures input.prevStart == Input.AnyStart(input.currentInputs)
      ensures var started := Input.AnyStart(input.currentInputs) && !old(input.prevStart);
              var next := FighterSelectNext(backCounter, backCounterMax, started, fighterCount, AnyBHeld(inputs));
              && (next == ToStageSelect ==>
                    && state == StageSelect
                    && (old(stageTicker) != null ==> stageTicker == old(stageTicker))
                    && (old(stageTicker) == null ==>
                          stageTicker != null && fresh(stageTicker)
                          && stageTicker.Model() == NewTicker(stageCount)))
              && (next == ToPackageSelect ==>
                    && state.PackageSelect? && state.packageNames == packageNames
                    && fresh(state.packageTicker)
                    && state.packageTicker.Model() == NewTicker(|packageNames|)
                    && stageTicker == old(stageTicker))
              && (next.StayCounting? ==>
                    state == MenuState.CharacterSelect(next.backCounter) && stageTicker == old(stageTicker))
    {
      var started := input.StartPressed();
      if started && fighterCount > 0 {
        if stageTicker == null {
          stageTicker := new MenuTicker(stageCount);
        }
        state := StageSelect;
      } else if AnyBHeld(inputs) {
        if backCounter > backCounterMax {
          var ticker := new MenuTicker(|packageNames|);
          state := PackageSelect(packageNames, ticker);
        } else {
          state := MenuState.CharacterSelect(backCounter + 1);
        }
      } else {
        state := MenuState.CharacterSelect(0);
      }
    }

    /** `step_stage_select`: every controller steers the one stage cursor (up
        wins over down); the frame ends as `StageSelectNext` says. */
    method StepStageSelect(inputs: seq<MenuInput>, input: Input.Input)
      requires Valid() && stageTicker != null
      modifies this`state, stageTicker, input`prevStart
      ensures Valid()
      ensures stageTicker.Model() == Steered(old(stageTicker.Model()), AnyUp(inputs), AnyDown(inputs))
      ensures input.prevStart == Input.AnyStart(input.currentInputs)
      ensures var started := Input.AnyStart(input.currentInputs) && !old(input.prevStart);
              var next := StageSelectNext(started, AnyAPress(inputs), AnyBPress(inputs), stageCount);
              && (next == ToStartGame ==> state == StartGame)
              && (next == BackToCharacterSelect ==> state == CharacterSelectStart())
              && (next == StayOnStage ==> state == old(state))
    {
      Steer(stageTicker, AnyUp(inputs), AnyDown(inputs));
      var started := input.StartPressed();
      if (started || AnyAPress(inputs)) && stageCount > 0 {
        state := StartGame;
      } else if AnyBPress(inputs) {
        state := CharacterSelectStart();
      }
    }

    /** `step_results`: start or an a press returns to fighter select. */
    method StepResults(inputs: seq<MenuInput>, input: Input.Input)
      modifies this`state, input`prevStart
      ensures input.prevStart == Input.AnyStart(input.currentInputs)
      ensures (Input.AnyStart(input.currentInputs) && !old(input.prevStart)) || AnyAPress(inputs) ==>
                state == CharacterSelectStart()
      ensures !((Input.AnyStart(input.currentInputs) && !old(input.prevStart)) || AnyAPress(inputs)) ==>
                state == old(state)
    {
      var started := input.StartPressed();
      if started || AnyAPress(inputs) {
        state := CharacterSelectStart();
      }
    }
  }
}
