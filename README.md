# ts-inn-game simulation core, in Dafny

This project models the simulation core of *ts-inn-game*, a small top-down inn game. The game runs its systems synchronously, once per animation frame.

- **Map decoder** (`Tiled`). Reads a map exported by the Tiled editor and produces:
  - tile placements from its grid layers;
  - collision walls and teleport zones from its object layers;
  - a spawn point and an interaction point.
- **Room loader** (`RoomLoader`). Switches the game to another registered map. It redraws the tile layers into the map container. It also overwrites, in place, the state the systems share: the player's Position, the wall list, the interaction record and the teleport zones. The fallbacks come from `Fixtures`.
- **Per-frame systems**:
  - keyboard input (`Keyboard`);
  - input to velocity, and velocity to position (`Movement`), over a structure-of-arrays entity store (`Components`, `Player`);
  - the teleport trigger (`Teleport`);
  - the day clock (`GameTime`);
  - the frame loop (`FrameLoop`).
- **Decision logic of the presentation systems**, with the drawing library left out:
  - the night shade (`NightOverlay`);
  - the "Season N HH:MM" clock text (`TimeDisplay`);
  - the interaction prompt (`InteractionPrompt`);
  - tile-sheet frames and the per-tile texture cache (`Tilemap`);
  - the player sprite (`PlayerRender`).

Design choices that shape the model:

- **Numbers.** Coordinates, minutes and durations are exact `real`s. Tile ids, indices and day counts are `int`s. JavaScript's truncating `%` and `Math.trunc` are written out in `Js`.
- **Source shape.**
  - Code that updates state step by step becomes classes and methods. Each method's `ensures` ties the new state to a specification function, and lemmas prove the properties of that function.
  - Pure code becomes functions and lemmas.
- **Callbacks.**
  - Systems handed to the frame loop are named; the loop records the calls it makes.
  - The teleport handler's argument is returned.
  - Objects created through a store are recorded in an `attached` log.
  - `Math.hypot` is not computed. Its result is passed in, and its contract is `Hypot.IsHypot`.

## Model

| member | source | states |
|---|---|---|
| Tiled.FindProperty | src/maps/tiled.ts:65-66 | Absent exactly when no property has the name. Otherwise it is the value of the first property with that name. |
| Tiled.GetObjectProperty | src/maps/tiled.ts:65-66 | An object without a property list has no property. Otherwise the lookup is the first-match search of its list. |
| Tiled.Span | src/maps/tiled.ts:80-81 | Zero tiles span zero pixels. |
| Tiled.SpanIsProduct | src/maps/tiled.ts:80-81 | n tiles laid end to end span n times the tile size. |
| Tiled.BuildTilePlacements | src/maps/tiled.ts:68-85 | The loop returns exactly the placements of all cells, in index order. |
| Tiled.PlacementsComeFromPlacedCells | src/maps/tiled.ts:75-83 | There are at most as many placements as cells. Each placement comes from a cell that holds a tile (not 0, not below firstgid), at that cell's column and row. Its tile id is gid - firstgid, so never negative. |
| Tiled.EveryPlacedCellIsPlaced | src/maps/tiled.ts:75-83 | Conversely, every cell that holds a tile gets its placement. |
| Tiled.PlacementsExample | test/maps/tiled.test.ts:30-40 | The grid [0,5,6,0], 2 wide, 32-pixel tiles, firstgid 1, gives (32,0,4) then (0,32,5). |
| Tiled.WallOf | src/maps/tiled.ts:92-101 | An object is a wall exactly when its `collision` property is boolean true and its width and height are positive. The wall copies the object's rectangle. |
| Tiled.ZoneOf | src/maps/tiled.ts:155-164 | An object is a zone exactly when its `teleport` property is any string, the empty string included, and its size is positive. The zone copies the rectangle and takes that string as its target. |
| Tiled.LayerWalls | src/maps/tiled.ts:91-102 | The inner loop collects the walls of one layer's objects, in order. |
| Tiled.ExtractCollisionWalls | src/maps/tiled.ts:87-105 | The result is the walls of all object-layer objects, layer by layer, then object by object. Tile layers contribute nothing. |
| Tiled.LayerZones | src/maps/tiled.ts:154-165 | The inner loop collects the zones of one layer's objects, in order. |
| Tiled.ExtractTeleportZones | src/maps/tiled.ts:150-168 | The result is the zones of all object-layer objects, in map order. |
| Tiled.WallsAreCollidingObjects | src/maps/tiled.ts:87-105 | A wall is extracted if and only if some object has `collision` true and a positive size, and the wall is that object's rectangle. |
| Tiled.ZonesAreTeleportObjects | src/maps/tiled.ts:150-168 | A zone is extracted if and only if some object has that string as `teleport` and a positive size, and the zone is that object's rectangle. |
| Tiled.ObjectsOfMembers | src/maps/tiled.ts:89-91 | An object is visited exactly when it belongs to an object layer. |
| Tiled.FindObject | src/maps/tiled.ts:111-117 | The per-layer search that stops at the first layer with a match finds the first match over all object layers. |
| Tiled.SpawnPoint | src/maps/tiled.ts:107-119 | None exactly when no object's name or type is the id. Otherwise it is the top-left corner of the first such object in map order. |
| Tiled.FindSpawnPoint | src/maps/tiled.ts:107-119 | The layer-by-layer search returns that spawn point. |
| Tiled.InteractionPointOf | src/maps/tiled.ts:131-145 | The point is the centre of the object. Its radius is half the longer side, its offset is 16, and its bounds are the object's rectangle. |
| Tiled.InteractionPointFor | src/maps/tiled.ts:121-148 | None exactly when no object has the id as its `interaction` property. Otherwise it is the point of the first such object. |
| Tiled.FindInteractionPoint | src/maps/tiled.ts:121-148 | The layer-by-layer search returns that interaction point. |
| Tiled.FirstGid | src/game/roomLoader.ts:90 | This is the first tileset's firstgid, or 1 when the map has no tileset. |
| Fixtures.DefaultCollisionWalls | src/game/fixtures.ts:4-7 | There are exactly two walls, both of positive size: one horizontal, one vertical. |
| Fixtures.DefaultInteractionPoint | src/game/fixtures.ts:9-20 | The point is the centre of its bounds. Its offset is 16, the same as the decoder's. Its radius reaches all four corners of the bounds. |
| RoomLoader.ReplaceArray | src/game/roomLoader.ts:54-57 | The shared array object now holds exactly the new items. |
| RoomLoader.CopyInteractionPoint | src/game/roomLoader.ts:40-52 | The shared record now holds the source point, bounds included. |
| RoomLoader.MapPlacementsAreFromTileCells | src/game/roomLoader.ts:87-100 | A map draws no more sprites than its tile layers have cells, and no sprite has a negative tile id. |
| RoomLoader.WallsFor | src/game/roomLoader.ts:106-110 | The walls are the decoded walls when there are any, else the fallback walls. |
| RoomLoader.RenderMap | src/game/roomLoader.ts:86-100 | The container is emptied exactly once. It then holds one fresh sprite per placement of every tile layer, in layer order, using the first tileset's firstgid. |
| RoomLoader.RoomLoader.constructor | src/game/roomLoader.ts:59-78 | No map is active. The defaults are spawn (200,200), interaction id "bell", and the built-in walls and interaction point. |
| RoomLoader.RoomLoader.PlacePlayer | src/game/roomLoader.ts:102-104 | The player's Position becomes the map's `player_spawn`, or the fallback spawn. Nothing else moves. |
| RoomLoader.RoomLoader.UseWalls | src/game/roomLoader.ts:106-110 | The shared wall list holds the walls for the map. |
| RoomLoader.RoomLoader.UseInteraction | src/game/roomLoader.ts:112-114 | The shared record holds the map's point for the interaction id, or the fallback point. |
| RoomLoader.RoomLoader.UseZones | src/game/roomLoader.ts:116 | The shared zone list holds exactly the decoded zones, possibly none. |
| RoomLoader.RoomLoader.ApplyObjects | src/game/roomLoader.ts:102-116 | All four updates above happen together. Other entities and all velocities are untouched. |
| RoomLoader.RoomLoader.Load | src/game/roomLoader.ts:80-119 | The load succeeds if and only if the key is not the active one and is registered. On failure, nothing changes. On success: the key becomes active; the container is cleared once and redrawn; the player is on the spawn; and the walls, interaction record and zones are replaced. `wasInside` is never touched. |
| RoomLoader.ExampleRoomSpawn | test/game/roomLoader.test.ts:101-105 | In the test room, the player lands on (100,120). |
| RoomLoader.ExampleRoomWithoutSpawn | test/game/roomLoader.test.ts:126-180 | A room without a spawn object has no spawn point, so the loader uses the fallback. |
| RoomLoader.ExampleRoomWalls | test/game/roomLoader.test.ts:106 | The test room's walls are [(40,50,30,10)]. |
| RoomLoader.ExampleRoomZones | test/game/roomLoader.test.ts:107-109 | The test room's zones are [(10,20,16,16,"inn")]. |
| RoomLoader.ExampleRoomInteraction | test/game/roomLoader.test.ts:110-121 | The test room's "bell" point is (210,225), radius 10, offset 16, bounds (200,220,20,10). |
| RoomLoader.ExampleRoomPlacements | test/game/roomLoader.test.ts:122-123 | The test room draws exactly one sprite. |
| Teleport.CornersAreInside | src/ecs/systems/teleport.ts:12-16 | All four edges belong to the zone. |
| Teleport.TeleportStep | src/ecs/systems/teleport.ts:25-34 | `inside` holds exactly when some zone contains the player. The handler fires exactly when the player is inside and was not inside before, with an unset flag counting as false. It fires with the target of the first containing zone. |
| Teleport.TeleportSystem | src/ecs/systems/teleport.ts:18-35 | One run fires as TeleportStep says and records `inside`. It leaves the zone list unchanged. |
| Teleport.FiresOncePerEntry | test/ecs/systems/teleport.test.ts:19-37 | Over any walk, the handler is called exactly once per entry into a zone. |
| Teleport.StayingInsideNeverFires | src/ecs/systems/teleport.ts:29-32 | A player who stays inside zones is never teleported again. |
| Teleport.WalkExample | test/ecs/systems/teleport.test.ts:19-37 | The walk from the test calls the handler twice, with "room1". |
| Movement.ZeroInputStandsStill | src/ecs/systems/movement.ts:15-23 | The velocity is zero exactly when the input is zero or the speed is zero. |
| Movement.VelocityIsScaledDirection | src/ecs/systems/movement.ts:15-19 | For non-zero input, the velocity is a positive multiple of the input, with the same sign on each axis, and its magnitude is exactly the speed. |
| Movement.DiagonalInputExample | test/ecs/movement.test.ts:16-25 | Input (1,1) at speed 10 gives equal positive components whose square is 50, that is 10/sqrt 2. |
| Movement.InputSystem | src/ecs/systems/movement.ts:9-24 | The player's velocity is set from the input, with a default speed of 120. Other velocities and all positions are unchanged. |
| Movement.IntegrateStandsStill | src/ecs/systems/movement.ts:29-30 | A step leaves the position unchanged exactly when dt is 0 or the velocity is zero. |
| Movement.IntegrateSplits | src/ecs/systems/movement.ts:29-30 | Two steps at the same velocity equal one step over the summed time. |
| Movement.IntegrateExample | test/ecs/movement.test.ts:32-39 | From the origin, velocity (10,-20) over 0.5 s reaches (5,-10). |
| Movement.MovementSystem | src/ecs/systems/movement.ts:26-31 | The player's position advances by velocity times dt on each axis. No velocity and no other position changes. |
| Components.World.AddEntity | src/ecs/entities/player.ts:9 | The new id was not in use before. |
| Player.SpawnPlayer | src/ecs/entities/player.ts:5-17 | The entity is new and has Position and Velocity. It is at the given point with velocity (0,0). No other entity changes. |
| GameTime.NormalizeMinutes | src/ecs/systems/time.ts:15-16 | The result lies in [0,1440) and differs from the input by a whole number of days, negative input included. |
| GameTime.NormalizeWithinDay | src/ecs/systems/time.ts:15-16 | Input already within the day is unchanged. |
| GameTime.AdvanceKeepsClockValid | src/ecs/systems/time.ts:34-38 | After a tick the minutes lie in [0,1440), and daysPassed never decreases. |
| GameTime.AdvanceAddsElapsedTime | src/ecs/systems/time.ts:34-38 | No time is lost: the day-and-minute total grows by exactly the elapsed game minutes. |
| GameTime.ForwardStepStaysAfterMidnight | src/ecs/systems/time.ts:23-34 | For dt >= 0 and a positive day length, the previous lemma applies. |
| GameTime.AdvanceExamples | test/ecs/time.test.ts:6-34 | From 0, 60 s at 15 minutes per day gives 96. From 1430, 20 s at 24 minutes per day gives 10 and day 1. |
| GameTime.GameTimeState.constructor | src/ecs/systems/time.ts:18-21 | The clock starts at day 0, at the start time (default 240) wrapped into the day. |
| GameTime.TimeSystem | src/ecs/systems/time.ts:26-39 | The shared clock advances by dt * 1440 / (R * 60), with R defaulting to 15. |
| FrameLoop.Dispatch | src/ecs/systems/loop.ts:23-25 | Every system is called once, in list order, with the same dt. |
| FrameLoop.StepDt | src/ecs/systems/loop.ts:28 | dt is 0 on the first step, otherwise the elapsed milliseconds divided by 1000. It is never negative when time does not go back. |
| FrameLoop.StartIsIdempotent | src/ecs/systems/loop.ts:38-42 | After start, the loop is running. A second start changes nothing. A start from stopped requests exactly one frame. |
| FrameLoop.StopIsIdempotent | src/ecs/systems/loop.ts:44-48 | After stop, the loop is stopped. A second stop changes nothing. The pending frame is cancelled once. |
| FrameLoop.RestartResetsDt | src/ecs/systems/loop.ts:38-42 | After stop and start, the next step dispatches with dt 0. A start while running keeps the timing. |
| FrameLoop.TickKeepsRunning | src/ecs/systems/loop.ts:33-36 | A tick steps, records the time and requests the next frame. |
| FrameLoop.StepExample | test/ecs/loop.test.ts:12-21 | Steps at 1000 and 1500 call a and b with dt 0, then with dt 0.5. |
| FrameLoop.Loop.RunSystems | src/ecs/systems/loop.ts:23-25 | The loop appends exactly the dispatch of all systems. |
| FrameLoop.Loop.Step | src/ecs/systems/loop.ts:27-31 | The state becomes StepState of the old state. |
| FrameLoop.Loop.Tick | src/ecs/systems/loop.ts:33-36 | The state becomes TickState of the old state. |
| FrameLoop.Loop.Start | src/ecs/systems/loop.ts:38-42 | The state becomes StartState of the old state. |
| FrameLoop.Loop.Stop | src/ecs/systems/loop.ts:44-48 | The state becomes StopState of the old state. |
| NightOverlay.DiffMinutes | src/render/nightOverlay.ts:42 | The forward distance on the clock lies in [0,1440). |
| NightOverlay.DistancesAddUp | src/render/nightOverlay.ts:50-54 | Going from start past a time inside the night to the end, the two legs add up to the night's length. |
| NightOverlay.AlphaInUnitRange | src/render/nightOverlay.ts:44-60 | The darkness is always in [0,1]. |
| NightOverlay.DayIsClear | src/render/nightOverlay.ts:50-56 | A night that starts and ends at the same minute gives 1. Outside the night window the darkness is 0. Inside the window, a transition of zero minutes or less gives 1 throughout. |
| NightOverlay.AlphaIsRampedNight | src/render/nightOverlay.ts:54-59 | Inside the night with a positive ramp, the darkness is min(1, since-start/ramp, to-end/ramp), where the ramp is capped at half the night. |
| NightOverlay.AlphaExamples | test/render/nightOverlay.test.ts:41-72 | Night 20:00-05:00, 60-minute ramp, full opacity 0.6: 20:00 gives 0, 20:30 gives 0.3, 21:00 gives 0.6, 04:30 gives 0.3, noon gives 0. |
| NightOverlay.OverlayAlphaBounded | src/render/nightOverlay.ts:104-106 | The overlay opacity stays between 0 and the night's full opacity. |
| NightOverlay.Overlay.Layout | src/render/nightOverlay.ts:70-75 | The rectangle is redrawn at the given size. Position and opacity are kept. |
| NightOverlay.EnsureOverlay | src/render/nightOverlay.ts:31-37 | The overlay is created and attached on first use only, then reused. A new overlay is transparent. |
| NightOverlay.NightOverlaySystem | src/render/nightOverlay.ts:84-107 | The overlay is placed at (x,y), default (0,0). It is laid out at the provided size, default 0 by 0. Its opacity is the darkness times the full opacity. |
| TimeDisplay.Digits | src/render/timeDisplay.ts:114 | `String(n)` gives at least one decimal digit, and a single digit exactly below 10. |
| TimeDisplay.PadStart | src/render/timeDisplay.ts:114 | `padStart` keeps a long-enough string. Otherwise it left-fills to the width and keeps the string as the suffix. |
| TimeDisplay.TwoDigitsRoundTrip | src/render/timeDisplay.ts:114 | 0 to 99 print as exactly two digits, which read back as the number. |
| TimeDisplay.FormatTimeRoundTrip | src/render/timeDisplay.ts:110-115 | For minutes >= 0 the text is zero-padded "HH:MM": five characters, decimal digits at 0, 1, 3 and 4, and ':' at 2. The hours are 00-23 and the minutes 00-59, and the text reads back as floor(minutes) mod 1440. |
| TimeDisplay.FormatTimeIsDaily | src/render/timeDisplay.ts:110-115 | The text is the same one day later. |
| TimeDisplay.TwoDigitsExamples | src/render/timeDisplay.ts:114 | 1 prints "01", 5 prints "05", and 23 and 59 print unchanged. |
| TimeDisplay.FormatTimeExample | src/render/timeDisplay.ts:110-115 | 65 minutes reads "01:05". |
| TimeDisplay.FormatTimeDropsSeconds | src/render/timeDisplay.ts:111 | 1439.5 minutes reads "23:59": the fractional minute is dropped. |
| TimeDisplay.DayOfYear | src/render/timeDisplay.ts:122-123 | The day of the year lies in [0,124), and is the floored remainder of any day count, negatives included. |
| TimeDisplay.FormatDateDecomposes | src/render/timeDisplay.ts:121-127 | The season index is 0-3 and the day in season is 1-31; together they give back the day of the year. |
| TimeDisplay.FormatDateIsYearly | src/render/timeDisplay.ts:121-127 | The date repeats every 124 days. |
| TimeDisplay.FormatDateExamples | src/render/timeDisplay.ts:117-127 | 0 is "Spring 1", 31 is "Summer 1", 123 is "Winter 31", and -1 is "Winter 31". |
| TimeDisplay.Display.SetText | src/render/timeDisplay.ts:141 | The label changes and the background is laid out for it. |
| TimeDisplay.EnsureDisplay | src/render/timeDisplay.ts:102-108 | The display is created and attached on first use only, then reused. |
| TimeDisplay.TimeDisplaySystem | src/render/timeDisplay.ts:129-144 | The display shows date then time, is placed at (12,12) unless overridden, is visible, and is laid out for its text. |
| InteractionPrompt.EnsurePrompt | src/render/interactionPrompt.ts:23-29 | The prompt is created and attached on first use only, then reused. |
| InteractionPrompt.IsWithinRange | src/render/interactionPrompt.ts:31-35 | The check holds exactly when the radius is not negative and dx^2+dy^2 <= r^2, boundary included. |
| InteractionPrompt.InteractionPromptSystem | src/render/interactionPrompt.ts:37-50 | The prompt is at (ix, iy - offsetY), offset default 0. It is visible exactly while the player is within reach of the record as it is now. |
| InteractionPrompt.PromptVisibilityExamples | test/render/interactionPrompt.test.ts:21-43 | Centre (10,0), radius 5: the player at (0,0) is hidden, at (8,0) shown, at (30,0) hidden. |
| Tilemap.CellOf | src/render/tilemap.ts:43-44 | For a tile id >= 0, the column is in [0,cols), the row is >= 0, and row*cols+col gives the id back. |
| Tilemap.CellsAreDistinct | src/render/tilemap.ts:43-47 | Different tile ids are cut from different cells. |
| Tilemap.FrameExample | test/render/tileSpriteFactory.test.ts:39-51 | A 64-pixel sheet of 16-pixel tiles cuts tile 5 at (16,16,16,16). |
| Tilemap.RenderExample | test/render/tilemap.test.ts:20-26 | [1,0,2,3] at 16 pixels gives (0,0,0), (0,16,1), (16,16,2). |
| Tilemap.TileSpriteFactory.constructor | src/render/tilemap.ts:31-38 | The column count is floor(sheet width / tile width). The cache starts empty. |
| Tilemap.TileSpriteFactory.CreateSprite | src/render/tilemap.ts:40-52 | Every call returns a new sprite on the tile's frame. A texture is built and cached only on a miss; otherwise the cached texture is shared. |
| Tilemap.MapContainer.RemoveChildren | src/game/roomLoader.ts:86 | The container is empty, and one more clear is counted. |
| Tilemap.ShowsAppend | src/render/tilemap.ts:23-28 | Drawing two runs of placements one after the other draws their concatenation. |
| Tilemap.AddTileSprite | src/render/tilemap.ts:24-27 | One loop step appends one fresh sprite at the placement, on the placement's tile. |
| Tilemap.RenderTileLayer | src/render/tilemap.ts:14-29 | The container gains exactly one fresh sprite per placement, in order, each at the placement's position and on its tile's frame. |
| PlayerRender.PlayerRenderSystem | src/render/playerRender.ts:17-30 | On the first run, one manager sprite is created, registered under the player and attached. Later runs create nothing. After each run the sprite is at the player's Position. |
| Keyboard.ToLower | src/input/keyboard.ts:26 | Lower-casing maps each character, so the length is kept. |
| Keyboard.NormalizeKey | src/input/keyboard.ts:24-27 | Arrow keys are kept. Everything else is lower-cased. |
| Keyboard.NormalizeKeyExamples | src/input/keyboard.ts:7-27 | "W" becomes "w" and "ArrowLeft" is kept. "ARROWUP" and "Enter" are not movement keys. |
| Keyboard.Apply | src/input/keyboard.ts:29-43 | Events only ever add movement keys, so the held set stays within the movement keys. |
| Keyboard.ApplyEffects | src/input/keyboard.ts:29-43 | For every set and key: a key that is not a movement key changes nothing on key-down or key-up. A movement key is added on key-down and removed on key-up. Blur empties the set, so the movement is (0,0). |
| Keyboard.PressReleaseRestores | src/input/keyboard.ts:29-39 | Pressing then releasing a key that was not held restores the set. |
| Keyboard.MovementOf | src/input/keyboard.ts:49-59 | Each axis is in {-1,0,1}. |
| Keyboard.MovementFollowsSides | src/input/keyboard.ts:49-58 | The movement depends only on which sides are held, so WASD aliases the arrows. An axis is 0 exactly when both or neither of its sides are held. |
| Keyboard.KeyboardExamples | test/input/keyboard.test.ts:17-41 | w↓, ArrowRight↓, w↑, ArrowRight↑ give (0,-1), (1,-1), (1,0), (0,0). Blur after ArrowLeft gives (0,0). |
| Keyboard.KeyboardInput.Dispatch | src/input/keyboard.ts:29-47 | While listening, an event updates the set as Apply says. After dispose, events change nothing. |
| Keyboard.KeyboardInput.Dispose | src/input/keyboard.ts:61-66 | The listeners are detached and the set is empty, so the movement is (0,0). |

## Left out

- **Drawing.** Pixi drawing, DOM and asset loading are not modelled. That covers the store factories `createTimeDisplayStore` and `createNightOverlayStore` (only the overlay's `layout` size is kept), textures, the debug overlay, perf counters, the camera, and the bootstrap and `main` wiring. Sprites, textures, prompts, overlays and displays are handles with the fields the systems write.
- **Wall blocking.** test/ecs/movement.test.ts:42-59 expects the movement system to stop at walls. src/ecs/systems/movement.ts:26-31 takes no walls and checks nothing. The model follows the code, so `Movement.MovementSystem` has no collision.
- **Clock text in the test.** test/render/timeDisplay.test.ts expects the bare text "01:05". src/render/timeDisplay.ts:141 prefixes the date, and the model follows the code.
- **`InteractionPoint` type.** The type in src/render/interactionPrompt.ts:16-21 lacks `bounds`, but the decoder, fixtures and loader all use it. The model has one record with `bounds` and an optional `offsetY`.
- **IEEE-754.** Rounding, NaN and infinities are not modelled; numbers are exact. Two preconditions stand in for the source's unguarded divisions:
  - `GameTime.TimeSystem` requires a non-zero day length;
  - `Tilemap.TileSpriteFactory` requires at least one sheet column.
- **`RoomLoader.RoomLoader.Load`** requires every registered map's tile layers to be at least one cell wide. With width 0 the source divides by zero when placing tiles.
- **`TimeDisplay.FormatTimeRoundTrip`** is stated for minutes >= 0 only. For negative minutes the source's `%` yields negative fields, which `ClockText` models but no lemma describes.
- **`Math.hypot`.** It is not computed. The input and prompt systems receive its result as a parameter described by `Hypot.IsHypot`. `Movement.InputSystem` accepts any such value; the lemmas about its result assume `IsHypot`.
- **Character case.** `toLowerCase` is modelled on ASCII letters only.
- **Entity storage.** bitecs `addEntity`/`addComponent` become a fixed-capacity entity store that hands out increasing ids. Spawning needs a free slot, and ids are not recycled. src/ecs/world.ts duplicates `spawnPlayer` without Velocity and is not part of this model.
- **Host callbacks.**
  - `now()`, `requestAnimationFrame` and `cancelAnimationFrame` become a timestamp parameter, a counter of frame ids and a log of cancelled ids.
  - The teleport handler and the overlay's `sizeProvider` become a return value and a parameter.
  - Systems handed to the loop are named, not run.
- **`RoomLoader.RoomLoader`.** The fallback walls and fallback interaction point are held as values. The source holds arrays and objects, so a caller that passed the same array as both `collisionWalls` and `fallbackCollisionWalls` would see them alias. That aliasing is not modelled.
- **Map registry.** `mapsByKey[mapKey]` is a plain map lookup. JavaScript prototype keys such as "toString" are not modelled.
- **Configuration.** eslint and vite configuration is not modelled.
