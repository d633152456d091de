/**
 * The game's main loop (main.py, the `while running` loop): the main menu,
 * the pause menu, level progression, death and the key events, one frame at
 * a time. The frame's other objects (the buttons, Player.update, the finish
 * box test, World.update) appear as their results for the frame.
 */
module Progression {
  import opened Common
  import opened Geometry

  /** The events the loop reacts to: the window closing, the R key, the Escape key, anything else. */
  datatype Event = Quit | KeyR | KeyEscape | OtherEvent

  /** What the rest of the frame reports to the loop. */
  datatype FrameInput = FrameInput(
    startButton: bool,   // start_btn.draw(...) fired (main menu)
    exitButton: bool,    // exit_btn.draw(...) fired (main menu)
    editorButton: bool,  // editor_btn.draw(...) fired (main menu)
    resumeButton: bool,  // resume_btn.draw(...) fired (pause menu)
    menuButton: bool,    // main_menu_btn.draw(...) fired (pause menu)
    hit: bool,           // Player.update touched an enemy or lava
    gotCoin: bool,       // Player.update collected coins
    moved: Pos,          // the player's position after Player.update
    atExit: bool,        // the finish box overlaps the player after the move
    start: Pos,          // world.start once this frame's rebuilds are done
    events: seq<Event>)  // pygame.event.get()

  /** The module globals and the player fields the loop reads and writes. */
  datatype Session = Session(
    running: bool, mainMenu: bool, paused: bool, gameOver: bool, outOfLevels: bool,
    changesMade: bool, lvlNum: int, loaded: int, editorLaunched: bool,
    hp: int, coins: int, overallCoins: int, dead: bool, pos: Pos)

  /** load_data raising IOError: the level file `lvl/world_data<n>.pkl` does not exist. */
  datatype GameError = MissingLevel(n: int)

  /** The state when the loop is entered: the menu, level 1 loaded, a fresh player. */
  function Initial(start: Pos): Session {
    Session(true, true, false, false, false, true, 1, 1, false, 5, 0, 0, false, start)
  }

  // ---------------------------------------------------------------------------
  // One frame, branch by branch

  /** The main-menu branch: reset the lives and the level, reload level 1, then the three buttons. */
  function MenuFrame(s: Session, inp: FrameInput, levels: set<int>): Result<Session, GameError> {
    if 1 !in levels then Err(MissingLevel(1))
    else Ok(MenuButtons(s.(hp := 5, lvlNum := 1, loaded := 1, changesMade := true), inp))
  }

  /** The menu's buttons: start leaves the menu, exit stops the loop, the editor button launches the editor and stops the loop. */
  function MenuButtons(s: Session, inp: FrameInput): Session {
    var s1 := if inp.startButton then s.(gameOver := false, outOfLevels := false, mainMenu := false) else s;
    QuitButtons(s1, inp)
  }

  /** The exit button stops the loop; the editor button launches the editor and stops the loop. */
  function QuitButtons(s: Session, inp: FrameInput): Session {
    var s1 := if inp.exitButton then s.(running := false) else s;
    if inp.editorButton then s1.(editorLaunched := true, running := false) else s1
  }

  /** The pause branch: resume, or go back to the menu, which marks the player dead. */
  function PauseFrame(s: Session, inp: FrameInput): Session {
    var s1 := if inp.resumeButton then s.(paused := false) else s;
    if inp.menuButton then s1.(paused := false, mainMenu := true, dead := true) else s1
  }

  /** The level-completed block: bank the coins, then the next level or the end of the levels. */
  function Complete(s: Session, start: Pos, maxLvls: int, levels: set<int>): Result<Session, GameError> {
    var s1 := Banked(s);
    if s1.lvlNum <= maxLvls then NextLevel(s1, start, levels)
    else Ok(s1.(outOfLevels := true, mainMenu := true))
  }

  /** The player steps back 10 pixels off the exit and the level's coins join the overall count. */
  function Banked(s: Session): Session {
    s.(pos := Pos(s.pos.x - 10, s.pos.y), overallCoins := s.overallCoins + s.coins, coins := 0)
  }

  /** The next level is loaded and the player put at its start. */
  function NextLevel(s: Session, start: Pos, levels: set<int>): Result<Session, GameError> {
    if s.lvlNum + 1 !in levels then Err(MissingLevel(s.lvlNum + 1))
    else Ok(s.(lvlNum := s.lvlNum + 1, loaded := s.lvlNum + 1, changesMade := false, pos := start))
  }

  /** The death block: one life less, back to the start, the level's coins lost; no lives left ends the game. */
  function Die(s: Session, start: Pos): Session {
    var s1 := LifeLost(s, start);
    if s1.hp <= 0 then s1.(gameOver := true, mainMenu := true) else s1
  }

  /** player.reset at the start with one life less and no coins. */
  function LifeLost(s: Session, start: Pos): Session {
    s.(hp := s.hp - 1, pos := start, coins := 0, dead := false)
  }

  /** Player.update's effect on the loop's state, then World.update clearing changes_made. */
  function Tick(s: Session, inp: FrameInput): Session {
    s.(dead := s.dead || inp.hit, coins := if inp.gotCoin then s.coins + 1 else s.coins,
       pos := inp.moved, changesMade := false)
  }

  /** The playing branch: the player's tick, the world's update, completion, then death. */
  function PlayFrame(s: Session, inp: FrameInput, maxLvls: int, levels: set<int>): Result<Session, GameError> {
    var s1 := Tick(s, inp);
    var r := if inp.atExit then Complete(s1, inp.start, maxLvls, levels) else Ok(s1);
    if r.Err? then r
    else if r.value.dead then Ok(Die(r.value, inp.start))
    else r
  }

  /** One event of the event loop. */
  function OnEvent(s: Session, e: Event): Session {
    match e
    case Quit => s.(running := false)
    case KeyR => s.(dead := true)
    case KeyEscape => if !s.mainMenu then s.(paused := !s.paused) else s
    case OtherEvent => s
  }

  /** The event loop over the frame's events, in order. */
  function OnEvents(s: Session, es: seq<Event>): Session
    decreases |es|
  {
    if |es| == 0 then s else OnEvent(OnEvents(s, es[..|es| - 1]), es[|es| - 1])
  }

  /** One iteration of the main loop. */
  function Step(s: Session, inp: FrameInput, maxLvls: int, levels: set<int>): Result<Session, GameError> {
    var r :=
      if s.mainMenu then MenuFrame(s, inp, levels)
      else if s.paused then Ok(PauseFrame(s, inp))
      else PlayFrame(s, inp, maxLvls, levels);
    if r.Err? then r else Ok(OnEvents(r.value, inp.events))
  }

  // ---------------------------------------------------------------------------
  // Properties of a frame

  /**
   * Reaching the finish banks the level's coins, zeroes them, and either moves
   * to the next level's start or, past the last level, sets out_of_levels and
   * returns to the menu.
   */
  lemma CompleteLevel(s: Session, start: Pos, maxLvls: int, levels: set<int>)
    ensures Complete(s, start, maxLvls, levels).Err? <==> s.lvlNum <= maxLvls && s.lvlNum + 1 !in levels
    ensures var r := Complete(s, start, maxLvls, levels);
      r.Ok? ==> r.value.overallCoins == s.overallCoins + s.coins && r.value.coins == 0 && r.value.hp == s.hp
    ensures var r := Complete(s, start, maxLvls, levels);
      r.Ok? && s.lvlNum <= maxLvls ==>
        r.value.lvlNum == s.lvlNum + 1 && r.value.loaded == s.lvlNum + 1 && r.value.pos == start
        && r.value.mainMenu == s.mainMenu
    ensures var r := Complete(s, start, maxLvls, levels);
      s.lvlNum > maxLvls ==> r.Ok? && r.value.lvlNum == s.lvlNum && r.value.outOfLevels && r.value.mainMenu
  {
    BankedFields(s);
    NextLevelFields(Banked(s), start, levels);
  }

  /** Banking keeps the level, the lives and the menu flag, and moves the level's coins to the overall count. */
  lemma BankedFields(s: Session)
    ensures var b := Banked(s);
      b.lvlNum == s.lvlNum && b.hp == s.hp && b.mainMenu == s.mainMenu && b.coins == 0
      && b.overallCoins == s.overallCoins + s.coins
  {
  }

  /** Loading the next level fails exactly when its file is missing, and otherwise changes only the level and the position. */
  lemma NextLevelFields(s: Session, start: Pos, levels: set<int>)
    ensures NextLevel(s, start, levels).Err? <==> s.lvlNum + 1 !in levels
    ensures var r := NextLevel(s, start, levels);
      r.Ok? ==>
        && r.value.lvlNum == s.lvlNum + 1 && r.value.loaded == s.lvlNum + 1 && r.value.pos == start
        && r.value.hp == s.hp && r.value.mainMenu == s.mainMenu && r.value.coins == s.coins
        && r.value.overallCoins == s.overallCoins
  {
  }

  /**
   * A death costs exactly one life, the coins of the level and the position;
   * with no lives left the game is over and the menu returns.
   */
  lemma DeathCostsOneLife(s: Session, start: Pos)
    ensures var d := Die(s, start);
      && d.hp == s.hp - 1 && d.coins == 0 && d.pos == start && !d.dead
      && d.overallCoins == s.overallCoins && d.lvlNum == s.lvlNum
      && (d.hp <= 0 ==> d.gameOver && d.mainMenu)
      && (d.hp > 0 ==> d.gameOver == s.gameOver && d.mainMenu == s.mainMenu)
  {
  }

  /**
   * A playing frame: the player dies this frame exactly when it was already
   * marked dead or Player.update hit something, and a frame without a death
   * keeps every life.
   */
  lemma PlayFrameLives(s: Session, inp: FrameInput, maxLvls: int, levels: set<int>)
    requires !s.mainMenu && !s.paused
    ensures var r := PlayFrame(s, inp, maxLvls, levels);
      r.Ok? ==>
        && (s.dead || inp.hit ==> r.value.hp == s.hp - 1 && r.value.coins == 0 && r.value.pos == inp.start)
        && (!s.dead && !inp.hit ==> r.value.hp == s.hp)
        && !r.value.dead
        && r.value.overallCoins == (if inp.atExit then s.overallCoins + s.coins + (if inp.gotCoin then 1 else 0)
                                    else s.overallCoins)
  {
    var s1 := Tick(s, inp);
    if inp.atExit {
      CompleteLevel(s1, inp.start, maxLvls, levels);
      var r := Complete(s1, inp.start, maxLvls, levels);
      if r.Ok? && r.value.dead {
        DeathCostsOneLife(r.value, inp.start);
      }
    } else if s1.dead {
      DeathCostsOneLife(s1, inp.start);
    }
  }

  /**
   * The menu's buttons touch only the menu, game-over, out-of-levels, running
   * and editor flags; start leaves the menu and clears the end flags.
   */
  lemma MenuButtonsEffect(s: Session, inp: FrameInput)
    ensures var t := MenuButtons(s, inp);
      t.hp == s.hp && t.lvlNum == s.lvlNum && t.loaded == s.loaded && t.changesMade == s.changesMade
    ensures var t := MenuButtons(s, inp);
      t.paused == s.paused && t.coins == s.coins && t.overallCoins == s.overallCoins && t.dead == s.dead && t.pos == s.pos
    ensures MenuButtons(s, inp).mainMenu == (s.mainMenu && !inp.startButton)
    ensures var t := MenuButtons(s, inp);
      t.gameOver == (s.gameOver && !inp.startButton) && t.outOfLevels == (s.outOfLevels && !inp.startButton)
    ensures MenuButtons(s, inp).running == (s.running && !inp.exitButton && !inp.editorButton)
    ensures MenuButtons(s, inp).editorLaunched == (s.editorLaunched || inp.editorButton)
  {
    var s1 := if inp.startButton then s.(gameOver := false, outOfLevels := false, mainMenu := false) else s;
    QuitButtonsEffect(s1, inp);
  }

  /** The exit and editor buttons touch only the running and editor flags. */
  lemma QuitButtonsEffect(s: Session, inp: FrameInput)
    ensures QuitButtons(s, inp) == s.(running := s.running && !inp.exitButton && !inp.editorButton,
                                      editorLaunched := s.editorLaunched || inp.editorButton)
  {
  }

  /** The menu frame always resets the lives to 5 and the level to 1, whatever is pressed. */
  lemma MenuResets(s: Session, inp: FrameInput, maxLvls: int, levels: set<int>)
    requires s.mainMenu && 1 in levels
    ensures var r := Step(s, inp, maxLvls, levels);
      r.Ok? && r.value.hp == 5 && r.value.lvlNum == 1 && r.value.loaded == 1 && r.value.changesMade
      && (inp.startButton <==> !r.value.mainMenu)
  {
    var s1 := s.(hp := 5, lvlNum := 1, loaded := 1, changesMade := true);
    MenuButtonsEffect(s1, inp);
    var t := MenuButtons(s1, inp);
    assert MenuFrame(s, inp, levels) == Ok(t);
    EventsKeep(t, inp.events);
  }

  /** The event loop never changes the lives, the level, the menu flag or the coins. */
  lemma {:induction false} EventsKeep(s: Session, es: seq<Event>)
    ensures var t := OnEvents(s, es);
      && t.hp == s.hp && t.lvlNum == s.lvlNum && t.loaded == s.loaded && t.mainMenu == s.mainMenu
      && t.coins == s.coins && t.overallCoins == s.overallCoins && t.gameOver == s.gameOver
      && t.outOfLevels == s.outOfLevels && t.pos == s.pos && t.changesMade == s.changesMade
      && (s.mainMenu ==> t.paused == s.paused)
    decreases |es|
  {
    if |es| > 0 {
      EventsKeep(s, es[..|es| - 1]);
      var t := OnEvents(s, es[..|es| - 1]);
      match es[|es| - 1]
      case Quit =>
      case KeyR =>
      case KeyEscape =>
      case OtherEvent =>
    }
  }

  /** Escape pressed twice in one frame leaves the pause flag as it was. */
  lemma EscapeTwice(s: Session)
    ensures OnEvents(s, [KeyEscape, KeyEscape]) == s
  {
    assert [KeyEscape, KeyEscape][..1] == [KeyEscape];
    assert [KeyEscape][..0] == [];
  }

  /** A frame input where nothing is pressed, hit or reached. */
  function Idle(start: Pos): FrameInput {
    FrameInput(false, false, false, false, false, false, false, start, false, start, [])
  }

  /**
   * Leaving a paused game for the menu marks the player dead, so the first
   * frame of the next game already costs a life: it starts with 4.
   */
  lemma MenuFromPauseCostsLife(s: Session, start: Pos, maxLvls: int, levels: set<int>)
    requires !s.mainMenu && s.paused && 1 in levels
    ensures var toMenu := Step(s, Idle(start).(menuButton := true), maxLvls, levels);
      && toMenu.Ok? && toMenu.value.mainMenu && toMenu.value.dead
      && var started := Step(toMenu.value, Idle(start).(startButton := true), maxLvls, levels);
      && started.Ok? && !started.value.mainMenu && started.value.hp == 5
      && var played := Step(started.value, Idle(start), maxLvls, levels);
      && played.Ok? && played.value.hp == 4
  {
    var toMenu := Step(s, Idle(start).(menuButton := true), maxLvls, levels);
    var started := Step(toMenu.value, Idle(start).(startButton := true), maxLvls, levels);
    assert started.value.dead;
  }

  // ---------------------------------------------------------------------------
  // What every frame keeps

  /**
   * The loop's invariant: the level number stays between 1 and one past the
   * last level, there are never more than 5 lives and at least one while
   * playing, the game-over and out-of-levels screens are menu screens, the
   * pause menu is never shown over the main menu, and the coin counts are
   * never negative.
   */
  predicate Inv(s: Session, maxLvls: int) {
    && 1 <= s.lvlNum <= maxLvls + 1
    && s.hp <= 5 && (!s.mainMenu ==> s.hp >= 1)
    && (s.gameOver ==> s.mainMenu) && (s.outOfLevels ==> s.mainMenu)
    && (s.paused ==> !s.mainMenu)
    && s.coins >= 0 && s.overallCoins >= 0
  }

  lemma InitialInv(start: Pos, maxLvls: int)
    requires maxLvls >= 0
    ensures Inv(Initial(start), maxLvls)
  {
  }

  /** The menu branch keeps the invariant. */
  lemma MenuKeepsInv(s: Session, inp: FrameInput, maxLvls: int, levels: set<int>)
    requires Inv(s, maxLvls) && s.mainMenu && maxLvls >= 0
    ensures var r := MenuFrame(s, inp, levels); r.Ok? ==> Inv(r.value, maxLvls)
  {
    if 1 in levels {
      var s1 := s.(hp := 5, lvlNum := 1, loaded := 1, changesMade := true);
      MenuButtonsEffect(s1, inp);
    }
  }

  /** The pause branch keeps the invariant. */
  lemma PauseKeepsInv(s: Session, inp: FrameInput, maxLvls: int)
    requires Inv(s, maxLvls) && !s.mainMenu && s.paused
    ensures Inv(PauseFrame(s, inp), maxLvls)
  {
  }

  /** The playing branch keeps the invariant. */
  lemma PlayKeepsInv(s: Session, inp: FrameInput, maxLvls: int, levels: set<int>)
    requires Inv(s, maxLvls) && !s.mainMenu && !s.paused
    ensures var r := PlayFrame(s, inp, maxLvls, levels); r.Ok? ==> Inv(r.value, maxLvls)
  {
    var s1 := Tick(s, inp);
    assert Inv(s1, maxLvls);
    var r := if inp.atExit then Complete(s1, inp.start, maxLvls, levels) else Ok(s1);
    if inp.atExit {
      CompleteLevel(s1, inp.start, maxLvls, levels);
    }
    if r.Ok? && r.value.dead {
      DeathCostsOneLife(r.value, inp.start);
    }
  }

  /** Every frame keeps the invariant. */
  lemma StepKeepsInv(s: Session, inp: FrameInput, maxLvls: int, levels: set<int>)
    requires Inv(s, maxLvls) && maxLvls >= 0
    ensures var r := Step(s, inp, maxLvls, levels); r.Ok? ==> Inv(r.value, maxLvls)
  {
    var r :=
      if s.mainMenu then MenuFrame(s, inp, levels)
      else if s.paused then Ok(PauseFrame(s, inp))
      else PlayFrame(s, inp, maxLvls, levels);
    if s.mainMenu {
      MenuKeepsInv(s, inp, maxLvls, levels);
    } else if s.paused {
      PauseKeepsInv(s, inp, maxLvls);
    } else {
      PlayKeepsInv(s, inp, maxLvls, levels);
    }
    if r.Ok? {
      EventsKeepInv(r.value, inp.events, maxLvls);
    }
  }

  lemma {:induction false} EventsKeepInv(s: Session, es: seq<Event>, maxLvls: int)
    requires Inv(s, maxLvls)
    ensures Inv(OnEvents(s, es), maxLvls)
    decreases |es|
  {
    if |es| > 0 {
      EventsKeepInv(s, es[..|es| - 1], maxLvls);
    }
  }

  /** The state after a run of frames, or the first error. */
  function Run(s: Session, inputs: seq<FrameInput>, maxLvls: int, levels: set<int>): Result<Session, GameError>
    decreases |inputs|
  {
    if |inputs| == 0 then Ok(s)
    else
      var r := Step(s, inputs[0], maxLvls, levels);
      if r.Err? then r else Run(r.value, inputs[1..], maxLvls, levels)
  }

  /** However many frames run, the invariant holds, so the lives and the level stay in range. */
  lemma {:induction false} RunKeepsInv(s: Session, inputs: seq<FrameInput>, maxLvls: int, levels: set<int>)
    requires Inv(s, maxLvls) && maxLvls >= 0
    ensures var r := Run(s, inputs, maxLvls, levels); r.Ok? ==> Inv(r.value, maxLvls)
    decreases |inputs|
  {
    if |inputs| > 0 {
      StepKeepsInv(s, inputs[0], maxLvls, levels);
      var r := Step(s, inputs[0], maxLvls, levels);
      if r.Ok? {
        RunKeepsInv(r.value, inputs[1..], maxLvls, levels);
      }
    }
  }

  // ---------------------------------------------------------------------------
  // The loop's globals as an object

  /** The main loop's module globals together with the player's fields it touches. */
  class Game {
    var running: bool
    var mainMenu: bool
    var paused: bool
    var gameOver: bool
    var outOfLevels: bool
    var changesMade: bool
    var lvlNum: int
    var loaded: int
    var editorLaunched: bool
    var hp: int
    var coins: int
    var overallCoins: int
    var dead: bool
    var pos: Pos

    function State(): Session
      reads this
    {
      Session(running, mainMenu, paused, gameOver, outOfLevels, changesMade, lvlNum, loaded, editorLaunched,
              hp, coins, overallCoins, dead, pos)
    }

    constructor (start: Pos)
      ensures State() == Initial(start)
    {
      running, mainMenu, paused, gameOver, outOfLevels := true, true, false, false, false;
      changesMade, lvlNum, loaded, editorLaunched := true, 1, 1, false;
      hp, coins, overallCoins, dead, pos := 5, 0, 0, false, start;
    }

    /** One iteration of `while running`; an error is the IOError of a missing level file. */
    method Frame(inp: FrameInput, maxLvls: int, levels: set<int>) returns (err: Option<GameError>)
      modifies this
      ensures var r := Step(old(State()), inp, maxLvls, levels);
        (r.Ok? ==> err == None && State() == r.value) && (r.Err? ==> err == Some(r.error))
    {
      err := None;
      if mainMenu {
        err := MenuBranch(inp, levels);
      } else if paused {
        PauseBranch(inp);
      } else {
        err := PlayBranch(inp, maxLvls, levels);
      }
      if err.Some? {
        return;
      }
      HandleEvents(inp.events);
    }

    method MenuBranch(inp: FrameInput, levels: set<int>) returns (err: Option<GameError>)
      modifies this`hp, this`lvlNum, this`loaded, this`changesMade, this`gameOver, this`outOfLevels, this`mainMenu, this`running, this`editorLaunched
      ensures var r := MenuFrame(old(State()), inp, levels);
        (r.Ok? ==> err == None && State() == r.value) && (r.Err? ==> err == Some(r.error))
    {
      hp := 5;
      lvlNum := 1;
      if lvlNum !in levels {
        return Some(MissingLevel(lvlNum));
      }
      loaded := lvlNum;
      changesMade := true;
      PressMenuButtons(inp);
      err := None;
    }

    method PressMenuButtons(inp: FrameInput)
      modifies this`gameOver, this`outOfLevels, this`mainMenu, this`running, this`editorLaunched
      ensures State() == MenuButtons(old(State()), inp)
    {
      if inp.startButton {
        gameOver := false;
        outOfLevels := false;
        mainMenu := false;
      }
      PressQuitButtons(inp);
    }

    method PressQuitButtons(inp: FrameInput)
      modifies this`running, this`editorLaunched
      ensures State() == QuitButtons(old(State()), inp)
    {
      if inp.exitButton {
        running := false;
      }
      if inp.editorButton {
        editorLaunched := true;
        running := false;
      }
    }

    method PauseBranch(inp: FrameInput)
      modifies this`paused, this`mainMenu, this`dead
      ensures State() == PauseFrame(old(State()), inp)
    {
      if inp.resumeButton {
        paused := false;
      }
      if inp.menuButton {
        paused := false;
        mainMenu := true;
        dead := true;
      }
    }

    method PlayBranch(inp: FrameInput, maxLvls: int, levels: set<int>) returns (err: Option<GameError>)
      modifies this`dead, this`coins, this`pos, this`changesMade, this`overallCoins, this`lvlNum, this`loaded, this`outOfLevels, this`mainMenu, this`hp, this`gameOver
      ensures var r := PlayFrame(old(State()), inp, maxLvls, levels);
        (r.Ok? ==> err == None && State() == r.value) && (r.Err? ==> err == Some(r.error))
    {
      PlayerTick(inp);
      err := None;
      if inp.atExit {
        err := Finish(inp.start, maxLvls, levels);
        if err.Some? {
          return;
        }
      }
      if dead {
        Respawn(inp.start);
      }
    }

    /** player.update() as the loop sees it, then world.update() returning False. */
    method PlayerTick(inp: FrameInput)
      modifies this`dead, this`coins, this`pos, this`changesMade
      ensures State() == Tick(old(State()), inp)
    {
      if inp.hit {
        dead := true;
      }
      if inp.gotCoin {
        coins := coins + 1;
      }
      pos := inp.moved;
      changesMade := false;
    }

    /** The finish box was reached. */
    method Finish(start: Pos, maxLvls: int, levels: set<int>) returns (err: Option<GameError>)
      modifies this`pos, this`overallCoins, this`coins, this`lvlNum, this`loaded, this`changesMade, this`outOfLevels, this`mainMenu
      ensures var r := Complete(old(State()), start, maxLvls, levels);
        (r.Ok? ==> err == None && State() == r.value) && (r.Err? ==> err == Some(r.error))
    {
      Bank();
      err := None;
      if lvlNum <= maxLvls {
        err := LoadNextLevel(start, levels);
      } else {
        outOfLevels := true;
        mainMenu := true;
      }
    }

    method Bank()
      modifies this`pos, this`overallCoins, this`coins
      ensures State() == Banked(old(State()))
    {
      pos := Pos(pos.x - 10, pos.y);
      overallCoins := overallCoins + coins;
      coins := 0;
    }

    method LoadNextLevel(start: Pos, levels: set<int>) returns (err: Option<GameError>)
      modifies this`lvlNum, this`loaded, this`changesMade, this`pos
      ensures var r := NextLevel(old(State()), start, levels);
        (r.Ok? ==> err == None && State() == r.value) && (r.Err? ==> err == Some(r.error))
    {
      lvlNum := lvlNum + 1;
      if lvlNum !in levels {
        return Some(MissingLevel(lvlNum));
      }
      loaded := lvlNum;
      changesMade := true;
      changesMade := false;
      pos := start;
      err := None;
    }

    /** The player is dead: lose a life and restart the level, or end the game. */
    method Respawn(start: Pos)
      modifies this`hp, this`pos, this`coins, this`dead, this`gameOver, this`mainMenu
      ensures State() == Die(old(State()), start)
    {
      LoseLife(start);
      if hp <= 0 {
        gameOver := true;
        mainMenu := true;
      }
    }

    method LoseLife(start: Pos)
      modifies this`hp, this`pos, this`coins, this`dead
      ensures State() == LifeLost(old(State()), start)
    {
      hp := hp - 1;
      pos := start;
      coins := 0;
      dead := false;
    }

    /** The `for event in pygame.event.get()` loop. */
    method HandleEvents(es: seq<Event>)
      modifies this`running, this`dead, this`paused
      ensures State() == OnEvents(old(State()), es)
    {
      var i := 0;
      while i < |es|
        invariant 0 <= i <= |es|
        invariant State() == OnEvents(old(State()), es[..i])
      {
        HandleEvent(es[i]);
        assert es[..i + 1][..i] == es[..i];
        i := i + 1;
      }
      assert es[..i] == es;
    }

    /** One event: the window closing stops the loop, R kills the player, Escape toggles the pause outside the menu. */
    method HandleEvent(e: Event)
      modifies this`running, this`dead, this`paused
      ensures State() == OnEvent(old(State()), e)
    {
      if e == Quit {
        running := false;
      }
      if e == KeyR {
        dead := true;
      }
      if e == KeyEscape {
        if !mainMenu {
          paused := if !paused then true else false;
        }
      }
    }
  }
}
