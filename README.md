# Platformer and level editor: a Dafny model

This project models the game logic of a small pygame platformer (`main.py`) and of its level editor
(`level_editor.py`). The model covers a level grid of integer cell codes:

| code | meaning |
|---|---|
| 0 | empty |
| 1 | dirt |
| 2 | grass |
| 3 | blob enemy |
| 6 | lava |
| 7 | coin |
| 8 | exit |
| -1 | start |

**The game** turns the grid into world sprites, runs the player and the enemies, and moves between the
main menu, the pause menu and the levels. The model covers:

- the rebuild scan that turns the grid into collision tiles, sprites, the start point and the finish
  box;
- the coin-only restart;
- the blobs' patrol;
- one tick of the player, with its physics taken as integers and its collisions resolved against the
  tiles;
- the edge-triggered buttons;
- the main loop: menu, pause, level completion, death and key events.

**The editor** shows a preview of the grid and edits it with the mouse. The model covers:

- the preview scan;
- the two paint tools, each behind a latch: the left button cycles a cell's code, the right button
  toggles the start and exit markers;
- the level-name text field;
- the load and save buttons, over a directory of level files.

Modules:

| module | file | contents |
|---|---|---|
| `Common` | `common.dfy` | `Option`, `Result` |
| `Geometry` | `geometry.dfy` | positions, rectangles, `colliderect` and `collidepoint` |
| `Grid` | `grid.dfy` | the row-major scan shared by both programs, what a scan emits, the marker searches |
| `GameWorld` | `world.dfy` | the game's `World` and `Enemy` |
| `GamePlayer` | `player.dfy` | `Player.update` |
| `Buttons` | `button.dfy` | `Button.draw`, identical in both programs |
| `Progression` | `progress.dfy` | the game's main loop: a step function `Step` over a `Session` record, and a `Game` class whose methods are proved against it |
| `EditorWorld` | `editor_world.dfy` | the editor's `World`: the preview and the paint tools |
| `EditorText` | `editor_text.dfy` | `TextField` |
| `LevelFiles` | `level_files.dfy` | the load and save buttons |

Each stateful method is proved against a pure function of the old state. The properties are then
proved about those functions.

## Model

| member | source | states |
|---|---|---|
| Grid.CellsOfExact | main.py:57-98 | The nested scan visits exactly the cells of the grid, each once, in strictly increasing row-major order. |
| Grid.EmitGridOrder | main.py:57-98 | The list a scan builds holds one rectangle per selected cell, the one that cell's code places. The rectangles are in row-major order of their cells, and no selected cell is missed. |
| Grid.EmitGrid | main.py:57-98 | A rectangle is in the built list exactly when some cell of the grid places it. |
| Grid.EmitCount | main.py:57-98 | When a sprite kind fires exactly on a set of codes, the list's length is the number of cells with those codes. |
| Grid.LastInGrid | main.py:61-62 | The last cell of a code in row-major order: there is none exactly when no cell holds that code; otherwise every other such cell comes before it. |
| Grid.ExitBeforeGroundInGrid | main.py:89-92 | The scan meets an exit while no ground tile has been built exactly when some exit cell has no dirt or grass cell before it in row-major order. |
| Grid.RowCells | main.py:58-97 | The cells of one row with their row, column and code: as many as the row has, column j holding the row's j-th code. |
| Grid.CellsOf | main.py:57-98 | Defines the cells of the nested scan, row after row, each row left to right. Grid.CellsOfExact proves it visits each cell once in row-major order. |
| Grid.Select | main.py:61-96 | Defines the rectangle each sprite kind places at a cell, by code: a tile square for dirt and grass (main.py:63-76), blobs (77-80) and coins (85-88); the lava box half a tile down (81-84); and, for the editor preview, squares or two-tile sprites raised one tile. |
| Grid.Emit | main.py:57-98 | Defines the list a scan appends to: each cell's rectangle in scan order. Grid.EmitGridOrder, EmitGrid and EmitCount state its contents. |
| Grid.ExitBeforeGround | main.py:89-92 | Defines when `img` is unbound at an exit: some exit cell is scanned while no dirt or grass cell has been. Grid.ExitBeforeGroundInGrid restates it over cell positions. |
| GameWorld.World.constructor | main.py:35-47 | The fields `__init__` sets before its closing update: empty tile and sprite lists, start and finish at (0, 0), and no finish box. The closing update is GameWorld.NewWorld. |
| GameWorld.NewWorld | main.py:35-48 | `World(screen, data, tile_size)`, closing update included. With changes_made set it fails exactly when an exit precedes all ground; otherwise tiles, blobs, lava and coins are the scan's lists, the blobs are fresh and at the start of their patrol, and start, finish and finish box are the last markers, or (0, 0) and no box. Without changes_made the draw fails for want of a finish box. |
| GameWorld.World.Update | main.py:50-106 | With changes it rebuilds from the grid. It fails exactly when an exit precedes all ground. Otherwise tiles, blobs, lava and coins are the scan's lists, the blobs are fresh and at the start of their patrol, and start, finish and finish box are the last markers or are kept. Without changes it only draws, which fails while there is no finish box. |
| GameWorld.World.Rebuild | main.py:51-100 | The lists are emptied, then the rows are scanned. The outcome is the whole scan's result, or the failure at the first exit met before any ground. |
| GameWorld.World.ScanRow | main.py:58-98 | One row, left to right, extends the scanned prefix's result by that row's cells. |
| GameWorld.World.ScanCell | main.py:60-96 | One cell's tests on its code extend the scanned prefix's result by that cell. It fails only on an exit before any ground. |
| GameWorld.World.SetStart | main.py:61-62 | A start cell moves `start` to its pixel position. |
| GameWorld.World.AddTile | main.py:63-76 | A dirt or grass cell appends its tile square and binds the image size. |
| GameWorld.World.AddBlob | main.py:77-80 | A blob cell adds a fresh enemy at the cell, distinct from the others and at the start of its patrol. |
| GameWorld.World.AddLava | main.py:81-84 | A lava cell appends a box half a tile down, a tile wide and half a tile plus 5 high. |
| GameWorld.World.AddCoin | main.py:85-88 | A coin cell appends a tile square at the cell. |
| GameWorld.World.SetFinish | main.py:89-96 | An exit cell sets `finish` and a finish box one tile up with the last ground image's size. It fails exactly when no ground tile came before. |
| GameWorld.World.SkipCell | main.py:60-97 | A cell of any other code changes nothing. |
| GameWorld.World.Restart | main.py:108-119 | Only the coin list is refilled: one coin per coin cell of the grid, in scan order. |
| GameWorld.World.UpdateEnemies | main.py:460 | Every blob makes one patrol step, and all stay valid. |
| GameWorld.ScanSnoc | main.py:60-96 | One more scanned cell appends to exactly the list of its code, and moves `start` or the finish on a start or exit cell. |
| GameWorld.StartOf | main.py:61-62 | Defines `start` after a scan: the position of the last start cell, or the previous start. GameWorld.StartMarker states it over the grid. |
| GameWorld.FinishPos | main.py:89-96 | Defines `finish` after a scan: the position of the last exit cell, or the previous one. GameWorld.FinishMarker states it over the grid. |
| GameWorld.FinishBox | main.py:89-95 | Defines the finish box after a scan: a tile square one tile above the last exit cell, or the previous box. GameWorld.FinishBoxAbove states it. |
| GameWorld.Expected | main.py:51-98 | Defines what a scan of a prefix of cells leaves in the lists and markers. GameWorld.World.Rebuild is proved to reach it. |
| GameWorld.Advance | main.py:60-96 | Defines one cell's effect by its code. GameWorld.ScanSnoc proves that a scan one cell longer is one Advance more. |
| GameWorld.PatrolStep | main.py:274-280 | Defines one blob tick: one pixel in its direction, counter up by one, and past ±50 the direction turns and the counter is negated. GameWorld.PatrolStepKeepsInv and the patrol lemmas state its effect. |
| GameWorld.BuildCounts | main.py:52-88 | After a rebuild the numbers of tiles, blobs, lava and coins equal the numbers of cells with codes 1 or 2, 3, 6 and 7. |
| GameWorld.GroundPlacement | main.py:63-76 | A tile square stands at (col·ts, row·ts) for each dirt or grass cell, and nowhere else. |
| GameWorld.EnemyPlacement | main.py:77-80 | A blob box stands at (col·ts, row·ts) for each blob cell, and nowhere else. |
| GameWorld.LavaPlacement | main.py:81-84 | A lava box stands at (col·ts, row·ts + ts//2), of size ts × (ts//2 + 5), for each lava cell, and nowhere else. |
| GameWorld.CoinPlacement | main.py:85-88 | A coin box stands at (col·ts, row·ts) for each coin cell, and nowhere else. |
| GameWorld.GroundTilesRowMajor | main.py:57-76 | The tile list is ordered top to bottom, then left to right. |
| GameWorld.StartMarker | main.py:61-62 | `start` after a rebuild is the position of the last start cell in row-major order, or the previous start when there is none. |
| GameWorld.FinishMarker | main.py:89-96 | `finish` after a rebuild is the position of the last exit cell, or the previous one when there is none. |
| GameWorld.FinishBoxAbove | main.py:89-96 | The finish box is a tile square one tile above `finish`, or the previous box when no exit was scanned. |
| GameWorld.Enemy.constructor | main.py:263-272 | A blob starts at its spawn with direction 1 and counter 0. |
| GameWorld.Enemy.Update | main.py:274-280 | One tick moves the blob one pixel in its direction and counts. Past ±50 it turns and negates the counter. The patrol invariant is kept. |
| GameWorld.PatrolStepKeepsInv | main.py:274-280 | Each tick keeps three facts: the direction is ±1, the counter is in [-51, 50], and the offset from spawn equals direction × counter. |
| GameWorld.PatrolBounded | main.py:271-280 | After any number of ticks a blob is at most 51 pixels from its spawn. |
| GameWorld.PatrolRun | main.py:274-280 | Until the counter passes 50, each tick moves one pixel the same way. |
| GameWorld.PatrolTurn | main.py:278-280 | The blob turns on the tick after its counter reaches 50, 51 pixels out, with the counter at -51. |
| GameWorld.PatrolFirstLeg | main.py:271-280 | The first leg lasts 51 ticks. |
| GameWorld.PatrolLaterLeg | main.py:271-280 | Every later leg lasts 102 ticks and ends 51 pixels out on the other side. |
| GamePlayer.ResolveDx | main.py:212-215 | After the tile loop, dx is 0 exactly when some tile overlaps the box shifted by the original dx, and unchanged otherwise. |
| GamePlayer.ResolveVertical | main.py:217-227 | The first tile overlapping the box moved by dy decides the result. Rising, dy becomes its bottom minus the player's top; falling, its top minus the player's bottom; either way vel_y becomes 0. Later tiles change neither. With vel_y 0 or no hit, both stay. |
| GamePlayer.ResolveInJump | main.py:212-230 | in_jump after the loop: on landing on tile i, it is set again exactly when a ground probe hits at i or later. Otherwise it is the old flag or any probe hit. |
| GamePlayer.TileStep | main.py:213-230 | Defines one tile of the collision loop: the x test, the y test acting on the sign of vel_y, then the zero-height ground probe. |
| GamePlayer.Resolve | main.py:212-230 | Defines the collision loop over the tiles in list order. GamePlayer.ResolveDx, ResolveVertical and ResolveInJump state its outcome. |
| GamePlayer.StartMotion | main.py:172-196 | Defines the motion the collision loop starts from: the walk dx, dy equal to vel_y after the jump and gravity, and in_jump after the keys. |
| GamePlayer.Launch | main.py:177-181 | Defines the jump: with the jump key and not in a jump, vel_y becomes the impulse and in_jump is set. GamePlayer.JumpOnlyFromGround and JumpImpulse state it. |
| GamePlayer.Walk | main.py:183-190 | Defines dx from the keys: left subtracts the speed and right adds it, so both cancel. |
| GamePlayer.Untouched | main.py:237 | The coins `spritecollide(..., True)` leaves: never more than were there. GamePlayer.UntouchedExact states exactly which. |
| GamePlayer.Fall | main.py:193-196 | Gravity never takes vel_y above the terminal velocity, and adds exactly the gravity when that stays below it. |
| GamePlayer.Clamp | main.py:246-252 | After the move the player is inside the screen horizontally and not below its bottom. Positions already inside are kept. |
| GamePlayer.VelocityBound | main.py:193-227 | After the keys, gravity and the tile loop, vel_y never exceeds the terminal velocity. |
| GamePlayer.JumpOnlyFromGround | main.py:177-181 | While in a jump the jump key has no effect. |
| GamePlayer.JumpImpulse | main.py:177-196 | A jump from the ground sets vel_y to the impulse plus one step of gravity, and sets in_jump. |
| GamePlayer.UntouchedExact | main.py:237-238 | The coins kept are exactly those that miss the pre-move box. Some coin is removed exactly when one overlaps. |
| GamePlayer.Player.constructor | main.py:126-163 | A new player stands at the given point with 5 lives, no coins, no velocity, not jumping and not dead. |
| GamePlayer.Player.Update | main.py:170-252 | One tick. The new position is the clamped move by the resolved (dx, dy). vel_y and in_jump are the loop's. dead is set when the pre-move box touches a blob or lava. The coin count grows by at most one while every overlapped coin leaves the group. Lives and overall coins are unchanged. |
| GamePlayer.Player.Steer | main.py:172-230 | The shift and vertical state are those of the tile loop started from the keys and gravity. |
| GamePlayer.Player.Accelerate | main.py:172-196 | The keys and gravity produce the scan's starting motion. |
| GamePlayer.Player.CollideTiles | main.py:212-230 | The loop over the tiles in list order computes the tile-by-tile resolution. |
| GamePlayer.Player.CollideTile | main.py:213-230 | One tile: the horizontal test, the vertical test acting only while vel_y is nonzero, then the ground probe. |
| GamePlayer.Player.CollideSprites | main.py:232-239 | Death and coin collection are tested against the box before the move. |
| GamePlayer.Player.MoveBy | main.py:241-252 | The move, then the bottom, left and right borders. |
| Buttons.DrawStep | level_editor.py:188-205 | The button fires exactly when the cursor is over it, the left button is down and the latch is open. Afterwards the latch is closed exactly when the button is down and the latch was closed or the cursor is over the button. |
| Geometry.Overlaps | main.py:214 | Defines `colliderect`: the boxes overlap with positive extent on both axes. |
| Geometry.Contains | main.py:321 | Defines `collidepoint`: the point lies in the half-open box. |
| Buttons.OneFirePerPress | main.py:321-328 | While the left button stays down, the button fires at most once, and not at all if the latch was closed. After it fires, the latch stays closed. |
| Buttons.ReleaseRearms | main.py:327-328 | A release opens the latch, so the next press over the button fires. |
| Buttons.Button.constructor | main.py:305-315 | A new button has its rectangle and an open latch. |
| Buttons.Button.Draw | main.py:317-334 | One draw, with the fire result and the new latch as DrawStep gives them. |
| Progression.CompleteLevel | main.py:465-480 | At the exit the level's coins move to the overall count. Within the levels, the next level is loaded and the player is put at its start; a missing file is an error. Past the last level, out_of_levels and main_menu are set. |
| Progression.BankedFields | main.py:466-468 | Banking moves the coins to the overall count and keeps level, lives and menu flag. |
| Progression.NextLevelFields | main.py:471-477 | Loading the next level fails exactly when its file is missing. Otherwise only the level and position change. |
| Progression.DeathCostsOneLife | main.py:484-495 | A death costs exactly one life, the level's coins and the position, and clears `dead`. With no lives left, game_over and main_menu are set; otherwise both are kept. |
| Progression.PlayFrameLives | main.py:447-495 | In the playing branch, before the event loop, a life is lost exactly when the player was marked dead or was hit. The branch never ends with the player dead (the R key in the event loop that follows can mark it dead again). Overall coins grow only at the exit. |
| Progression.MenuButtonsEffect | main.py:426-435 | Start leaves the menu and clears game_over and out_of_levels. Exit and editor stop the loop, and editor launches the editor. Nothing else changes. |
| Progression.QuitButtonsEffect | main.py:431-435 | The exit and editor buttons touch only the running and editor flags. |
| Progression.MenuResets | main.py:421-430 | For any max_lvls, every menu frame resets lives to 5 and level to 1 and reloads level 1. The menu is left exactly when start was pressed. |
| Progression.EventsKeep | main.py:498-506 | The event loop never changes lives, level, coins, position or the menu flags, nor the pause flag while in the menu. |
| Progression.EscapeTwice | main.py:504-506 | Escape twice in one frame leaves the state as it was. |
| Progression.MenuFromPauseCostsLife | main.py:441-444 | Going to the menu from pause marks the player dead. After pressing start with 5 lives, the first playing frame leaves 4. |
| Progression.InitialInv | main.py:14-22 | The state the loop starts in satisfies the invariant. |
| Progression.MenuKeepsInv | main.py:411-435 | The menu branch keeps the invariant. |
| Progression.PauseKeepsInv | main.py:438-444 | The pause branch keeps the invariant. |
| Progression.PlayKeepsInv | main.py:447-495 | The playing branch keeps the invariant. |
| Progression.StepKeepsInv | main.py:404-506 | Every frame keeps the invariant. |
| Progression.EventsKeepInv | main.py:498-506 | The event loop keeps the invariant. |
| Progression.RunKeepsInv | main.py:404-506 | Over any run of frames: the level stays in 1..max_lvls + 1, lives stay at most 5 and at least 1 while playing, game over and out of levels are menu screens, pause is never over the menu, and coin counts are never negative. |
| Progression.Step | main.py:404-506 | Defines one iteration: the menu, pause or playing branch chosen by the flags, then the event loop; a missing level file ends it with IOError. Progression.StepKeepsInv and RunKeepsInv state what it keeps. |
| Progression.MenuFrame | main.py:411-435 | Defines the menu branch: lives 5, level 1, level 1 reloaded (IOError when its file is missing), changes_made set, then the buttons. Progression.MenuResets states it. |
| Progression.PauseFrame | main.py:438-444 | Defines the pause branch: resume clears the pause; menu clears it, returns to the menu and marks the player dead. |
| Progression.PlayFrame | main.py:447-495 | Defines the playing branch: the player's tick, completion at the exit, then the death block. Progression.PlayFrameLives states it. |
| Progression.Complete | main.py:465-480 | Defines the level-completed block. Progression.CompleteLevel states it. |
| Progression.Banked | main.py:466-468 | Defines the step back off the exit and the banking of the coins. Progression.BankedFields states it. |
| Progression.NextLevel | main.py:471-477 | Defines the load of the next level: IOError when its file is missing, otherwise the level advances and the player stands at the start. Progression.NextLevelFields states it. |
| Progression.Die | main.py:484-495 | Defines the death block. Progression.DeathCostsOneLife states it. |
| Progression.OnEvent | main.py:499-506 | Defines one event: Quit stops the loop, R marks the player dead, Escape toggles the pause outside the menu. Progression.EventsKeep and EscapeTwice state what the event loop keeps. |
| Progression.Game.constructor | main.py:14-22 | The loop starts in the menu on level 1 with 5 lives. |
| Progression.Game.Frame | main.py:404-506 | One loop iteration is the step function, or the IOError of a missing level file. The errors World.update can raise inside the iteration are not among its outcomes. |
| Progression.Game.MenuBranch | main.py:411-435 | The menu branch, with reset, reload and buttons. |
| Progression.Game.PressMenuButtons | main.py:427-435 | The three menu buttons in order. |
| Progression.Game.PressQuitButtons | main.py:431-435 | The exit and editor buttons. |
| Progression.Game.PauseBranch | main.py:438-444 | Resume clears the pause. Menu clears it, shows the menu and marks the player dead. |
| Progression.Game.PlayBranch | main.py:447-495 | The player's tick, completion, then death. |
| Progression.Game.PlayerTick | main.py:448-450 | Player.update's effect on the loop state, and World.update clearing changes_made. |
| Progression.Game.Finish | main.py:465-480 | The level-completed block. |
| Progression.Game.Bank | main.py:466-468 | The step back off the exit, and the coins moved to the overall count. |
| Progression.Game.LoadNextLevel | main.py:471-477 | The next level's file is read or raises IOError. On success the level number and the loaded level advance, changes_made ends cleared, and the player is put at the world's start. |
| Progression.Game.Respawn | main.py:484-495 | The death block. |
| Progression.Game.LoseLife | main.py:486-491 | One life less, back to the start, no coins, not dead. |
| Progression.Game.HandleEvents | main.py:498-506 | The event loop over the frame's events in order. |
| Progression.Game.HandleEvent | main.py:499-506 | Quit stops the loop, R marks the player dead, and Escape toggles the pause outside the menu. |
| EditorWorld.PreviewPlacement | level_editor.py:53-109 | A preview sprite stands at (col·ts, row·ts) for each cell of code 1, 2, 3, 6 or 7. For the exit and the start it stands at (col·ts, row·ts − ts), two tiles tall. There are no others. |
| EditorWorld.PreviewCount | level_editor.py:53-109 | The preview has one sprite per cell of code 1, 2, 3, 6, 7, 8 or -1. Code 0 draws nothing. |
| EditorWorld.PreviewSprite | level_editor.py:59-107 | The sprites appended for one cell are exactly what its code places. |
| EditorWorld.World.Preview | level_editor.py:52-111 | The preview list is the row-major scan's rectangles when changes_made is set, and empty otherwise. |
| EditorWorld.World.PreviewRow | level_editor.py:57-109 | One row of the preview scan extends the rows above it by that row's cells. |
| EditorWorld.World.constructor | level_editor.py:31-50 | A new editor world holds the grid, with both latches open and no markers recorded. |
| EditorWorld.World.UpdateData | level_editor.py:171-172 | A loaded grid replaces the one being edited. |
| EditorWorld.World.Paint | level_editor.py:124-168 | One frame of the paint tools as PaintStep gives it, or the IndexError of a target outside the grid. The largest x the edit area admits is a parameter: AsWrittenMaxX (700) is the guard as written, EditMaxX (699) as intended. |
| EditorWorld.World.LeftClick | level_editor.py:129-147 | The left tool: cycle the target once per press, and release the latch when the button is up. |
| EditorWorld.World.RightClick | level_editor.py:149-168 | The right tool: a start becomes an exit and 0..8 become a start, once per press, with new markers recorded once. |
| EditorWorld.PaintStep | level_editor.py:124-168 | Defines one frame of the paint tools: nothing right of the edit area, else the left tool, then the right tool below the top row; IndexError for a target outside the grid. EditorWorld.PaintOnlyTarget and PaintTarget state its effect. |
| EditorWorld.LeftTool | level_editor.py:129-147 | Defines the left tool: cycle the target once per press, and release the latch and set changes_made while the button is up. |
| EditorWorld.RightTool | level_editor.py:149-168 | Defines the right tool: toggle the target once per press, record a new marker, and release the latch while the button is up. |
| EditorWorld.Cycle | level_editor.py:134-142 | Defines the left-click cycle: the next code, 4 becomes 6 and above 7 becomes 0. EditorWorld.CycleRange states the codes it walks. |
| EditorWorld.Toggle | level_editor.py:155-163 | Defines the right-click toggle: a start becomes an exit, 0..8 become a start, other codes stay. |
| EditorWorld.Target | level_editor.py:131-132 | Defines the cell under the cursor: (y // ts, x // ts). |
| EditorWorld.AddOnce | level_editor.py:157-163 | The coordinate is in the list afterwards, nothing else is added, and a listed coordinate leaves the list as it was. |
| EditorWorld.PaintOnlyTarget | level_editor.py:125-163 | A frame fails exactly when a tool fires with the cursor outside the grid. Otherwise only the cell (y//ts, x//ts) can change, and the grid keeps its shape. |
| EditorWorld.NoEditOutsideArea | level_editor.py:127 | Right of the edit area nothing is edited, latched or released. |
| EditorWorld.PaintTarget | level_editor.py:129-164 | The target cell gets the cycle if the left tool fires, then the toggle if the right tool fires. A new start or exit marker is recorded exactly then. A tool that fires closes its latch. |
| EditorWorld.TopRowIgnoresRight | level_editor.py:149-168 | On the top row the right button does nothing, and its latch is not released. |
| EditorWorld.CycleRange | level_editor.py:134-142 | Left clicks walk 0, 1, 2, 3, 6, 7, 0. From any level code they never write 4, 5, 8 or -1, and both 8 and -1 go to 0. |
| EditorWorld.PaintKeepsCodes | level_editor.py:129-164 | A level holding only valid codes keeps only valid codes. |
| EditorWorld.PaintKeepsNoDup | level_editor.py:155-163 | start_pos and finish_pos never hold a coordinate twice. |
| EditorWorld.AddOnceNoDup | level_editor.py:157-163 | Appending only absent coordinates keeps a list free of duplicates. |
| EditorWorld.HeldButtonsEditOnce | level_editor.py:129-168 | While each held button's latch is closed, no frame of the press edits or records anything, wherever the cursor goes. |
| EditorWorld.PressEditsOnce | level_editor.py:129-168 | After the frame in which a held button's tool fires (or with its latch already closed), the rest of the press leaves the grid and the markers as that frame left them: one edit per press. |
| EditorWorld.AsWrittenGuardOverflows | level_editor.py:127-134 | As written, the guard lets a left click at x = 700 index column 20 of a 20 × 20 level. |
| EditorWorld.EditAreaInRange | level_editor.py:127-134 | With the edit area ending at x = 699, no cursor position in the window indexes outside a 20 × 20 level. |
| EditorText.FieldKeys | level_editor.py:223-241 | A click inside focuses and a click outside unfocuses. While focused, Backspace drops the last character and leaves an empty text empty, Return keeps the text and unfocuses, and any other key appends its text. Without a focused key press the text is unchanged. |
| EditorText.FieldStep | level_editor.py:223-241 | Defines one call of TextField.update. EditorText.FieldKeys states its effect. |
| EditorText.Focus | level_editor.py:227-231 | Defines the focus after the mouse test: a click inside focuses, a click outside unfocuses, no click keeps it. |
| EditorText.TypeThenErase | level_editor.py:236-241 | Typing a character and erasing it restores the field. |
| EditorText.TypingAppends | level_editor.py:234-241 | A run of keys appends their texts in order while focused, and changes nothing while unfocused. |
| EditorText.TextField.constructor | level_editor.py:209-216 | A new field reads "world_data" and is unfocused. |
| EditorText.TextField.Update | level_editor.py:223-241 | One event, as FieldStep gives it. |
| LevelFiles.NumberOfName | level_editor.py:302-305 | The slice [14:len-4] of "lvl/" + name + ".pkl" is the typed name after its tenth character. |
| LevelFiles.LevelPath | level_editor.py:302 | Defines the path of a typed name: "lvl/" + name + ".pkl". |
| LevelFiles.NumberPart | level_editor.py:305 | Defines the slice `[14:len - 4]`, empty when Python would clamp it to nothing. LevelFiles.NumberOfName states what it picks out. |
| LevelFiles.ParseInt | level_editor.py:305 | Defines `int()` on the sliced text: an optional sign and ASCII digits, otherwise ValueError. LevelFiles.ParseIntRoundTrip states it inverts the rendering. |
| LevelFiles.CopyName | level_editor.py:306 | Defines the f-string `lvl/world_data{num}.pkl`. LevelFiles.CopyNameOfName states which typed name spells it. |
| LevelFiles.LoadLevel | level_editor.py:301-313 | Defines the load button's outcome. LevelFiles.LoadCases states its cases. |
| LevelFiles.NumeralDigits | level_editor.py:306 | The decimal rendering of a natural number is a nonempty digit string denoting it, with no leading zero. |
| LevelFiles.ParseIntRoundTrip | level_editor.py:305-306 | Parsing the rendering of any integer gives that integer back. |
| LevelFiles.LoadCases | level_editor.py:301-313 | The load button's outcomes. An existing level is read and nothing is written. An unparsable number or a missing default level is an error that writes nothing. Otherwise the default is copied to the numbered file, and the read succeeds exactly when that copy is the file asked for. |
| LevelFiles.CopyNameOfName | level_editor.py:302-306 | "world_data" and a number spell the path the default level is copied to. |
| LevelFiles.NumberOfNumberedName | level_editor.py:302-305 | The number read back from "world_data" and a number is that number. |
| LevelFiles.NewLevelCopiesDefault | level_editor.py:301-313 | A new level named "world_data" and a number is created as a copy of the default level and loaded. |
| LevelFiles.LeadingZeroClobbers | level_editor.py:304-311 | "world_data07" copies the default level over level 7 and then fails to read the file it asked for. |
| LevelFiles.SaveThenLoad | level_editor.py:316-317 | Saving a grid and loading by the same name reads the grid back. |
| LevelFiles.Editor.constructor | level_editor.py:272-274 | With the default level's file present, the editor starts on it. |
| LevelFiles.StartEditor | level_editor.py:272-274 | Start-up fails with the IOError of `load_data(default_level)` exactly when the default level is missing; otherwise the editor opens on the default level with changes_made set. |
| LevelFiles.Editor.Load | level_editor.py:301-313 | The load button as LoadLevel gives it: new directory and current level, and on success the grid is in the World. |
| LevelFiles.Editor.Save | level_editor.py:316-317 | The save button writes the edited grid to the current level's file. |

## Left out

- Rendering, fonts, images, `dev` overlays and audio are display only. Only the rectangle sizes the scaled images imply are kept.
- The pygame event queue, `clock.tick` and the frame loop are not modelled. One loop iteration is a step with the frame's inputs as parameters.
- `subprocess.Popen` launching the other program is kept only as the `editorLaunched` flag and the loop stopping.
- Pickle files are a map from path to grid (`LevelFiles.Files`, and the set of level numbers whose files exist in `Progression`). A missing key stands for the IOError of `load_data`. Errors while writing are not modelled, because a map update cannot fail.
- `os.listdir`, which gives `max_lvls`, is taken as the parameter `maxLvls`.
- GamePlayer.Player.Update: the float constants (`speed`, `jvel_y`, `dvel_y`, `lvel_y`) are integer parameters, and the truncation of float coordinates on `Rect` assignment is not modelled.
- GamePlayer.Player.Update: the walking animation (`counter`, `index`, `direction`, the sprite choice) is display only and left out.
- `colliderect` is strict overlap on both axes. Newer pygame reports no collision for a zero-size rectangle, and under that rule the ground probe at main.py:229 never fires. The model keeps the plain interval formula.
- The grid is a sequence of rows, each a sequence of codes. The paint tools replace one cell by reassigning that field, not by writing into a shared two-dimensional array. This keeps ragged rows, which a pickled list of lists may have.
- GameWorld.World.constructor: models the fields set at main.py:35-47 only. The World.update that ends `__init__` (main.py:48) can raise, and a Dafny constructor cannot report an error, so the whole `World(...)` call is GameWorld.NewWorld.
- GameWorld.World.Update: on a failure (the UnboundLocalError of main.py:92, or the IndexError of drawing without a finish box) the state left behind is not specified. The program ends there.
- Progression.Game.Respawn: the objects of the frame reach the loop as inputs (`FrameInput`): the buttons, Player.update, the finish-box test and `world.start`. The coin rebuild `world.restart()` at main.py:490 is GameWorld.World.Restart and is not called from here.
- Progression.Game.Frame: the errors World.update raises inside a playing iteration are not among the frame's outcomes. These are the UnboundLocalError of main.py:92 when a level's exit comes before its ground (reached through main.py:450 and 475), and the IndexError of an empty `finish_data` at main.py:102 or 465. They are the failures of GameWorld.World.Update; the loop takes the world's start and the finish-box test as inputs.
- Progression.Game.LoadNextLevel: the rebuild of the next level at main.py:475 is GameWorld.World.Update. Its effect on `world.start` arrives as the input `start`.
- LevelFiles.Editor.constructor: its precondition is the case in which `load_data(default_level)` at level_editor.py:272 succeeds. A constructor cannot report an error, so start-up with its IOError is LevelFiles.StartEditor.
- LevelFiles.ParseInt: Python's `int()` also accepts surrounding whitespace, underscores between digits and non-ASCII digits. The model takes an optional sign and ASCII digits only.
- Negative mouse coordinates are not modelled. Python would index from the end of a row, while the model reports them as out of range.
- The editor's `world_data` global and `world.data` are the same list object. The model keeps the grid once, in the World.
- The editor's `changes_made` global is never cleared: lines 147 and 168 set an attribute of the World instead. So the preview is rebuilt every frame. The attribute is kept as `changesMade` in `Tools`.
- The editor's game and exit buttons only stop the loop or launch the game. They are not modelled beyond `Buttons.Button.Draw`.

## Findings

| source | as written | input that shows it | evidently intended | confidence | as-written member | corrected member |
|---|---|---|---|---|---|---|
| level_editor.py:127 | `pos[0] <= screen_height` admits x = 700 | a left click at (700, 35) on a 20 × 20 level targets row 1, column 20 and raises IndexError | the edit area ends where the side panel starts (the border line at x = 700, line 329), so the guard is x < 700 | not executed | EditorWorld.AsWrittenGuardOverflows | EditorWorld.EditAreaInRange |
