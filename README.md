# Catch-the-falling-items game: a verified model of its rules

This project models the gameplay core of a browser game in which a basket
at the bottom of a 400×600 canvas catches falling fruit. Power-ups also
fall and must be caught. Obstacles fall too and must be avoided. The model
covers three parts of the JavaScript code:

- the session rules of `game.js`: the session state and the basket, the
  level, item, obstacle and power-up catalogs, the entity factories with
  their rarity-weighted choice and spaced placement, the frame step
  (time scaling, power-up countdown and expiry, movement, and the three
  reverse-index collision passes), `activatePowerup` with its pre-emption
  cleanup and its effects and timeouts, `levelUp`, `gameOver`, the reset in
  `startGame`, the two spawn gates, game-speed control, keyboard and touch
  movement, and the particle list's survival and cap;
- the colour helpers `lightenColor` and `darkenColor`;
- the camera-shake state machine of `enhanced-camera-shake.js` and
  `createObstacleEatEffect`.

JavaScript numbers are modelled as exact `real`s. Scores, lives and points
are `int`s. `Math.random` is a stream `random: nat -> real` of values in
`[0, 1)`, read at the cursor `draws` that the session carries. Only draws
that decide something the rules read are taken. Draws that feed only
particles, sounds, rotation or the pulse phase are not. Any run of the game
with the power-up drift corrected (see Findings) is therefore a run of the
model on the stream of the draws it kept.

Layout:

- `util.dfy` (`Util`): `Option`, real minimum, maximum and absolute value.
- `colors.dfy` (`Colors`): hex parsing and formatting, `LightenColor`,
  `DarkenColor`, and their round trip and monotonicity lemmas.
- `camera_shake.dfy` (`CameraShake`): the shake state as a value, the
  `Shake` class whose methods follow it, and the obstacle-eat mapping.
- `catalog.dfy` (`Catalog`): the level table, the item, obstacle and
  power-up catalogs, the lives-to-size factors, and the level gates.
- `spawning.dfy` (`Spawning`): the rarity-weighted walk and the placement
  loop, each as a specification function and as a loop method proved
  against it.
- `entities.dfy` (`Entities`): falling entities, `checkCollision`, the
  per-frame drift, and the freeze, time-slow and gold-rush transforms.
- `rules.dfy` (`Rules`): the session state `GameState` and one function
  per session operation, from the state before to the state after.
- `session.dfy` (`Session`): the class `Game`, whose fields are the session
  state. Each method is proved to leave exactly the state that the
  matching `Rules` function gives.
- `particles.dfy` (`Particles`): the particle list that `updateParticles`
  filters and caps.
- `invariants.dfy` (`Invariants`): the session invariant `Valid`, which
  `startGame` establishes and every operation keeps (the frame, the power-up
  activation, `levelUp`, every timer callback and every input), and the
  property that a game with no lives left is paused, which every operation
  but `pauseGame` and `continueToNextLevel` keeps.
- `properties.dfy` (`Properties`): the promised behaviour of each
  operation.
- `findings.dfy` (`Findings`): the gold-rush interval leak.

## Model

| member | source | states |
|---|---|---|
| Util.MinReal | game.js:2041 | the result is the smaller of the two arguments (`Math.min`) |
| Util.MaxInt | game.js:2281 | the result is the larger of the two arguments (`Math.max`) |
| Colors.ToInt32 | game.js:292 | the result of `parseInt` truncated as `>>`/`&` truncate it lies in the signed 32-bit range |
| Colors.ClampChannel | game.js:297 | the channel lies in [0,255], is unchanged inside that range, and is 0 or 255 outside it |
| Colors.Amount | game.js:293 | `Math.round(2.55 * percent)` is never negative for a non-negative percent |
| Colors.ParseInt16 | game.js:292 | on a non-empty string of hex digits only, `parseInt(_, 16)` reads them all |
| Colors.ParseIntDropsHexPrefix | game.js:292 | `parseInt("0xff", 16)` drops the `0x` prefix and reads 255 |
| Colors.ParseIntReadsSign | game.js:292 | `parseInt("-ff", 16)` reads the sign and gives −255 |
| Colors.ParseIntSkipsSpace | game.js:292 | `parseInt(" ff", 16)` skips the leading space and reads 255 |
| Colors.ParseIntNeedsDigitsAfterPrefix | game.js:292 | `parseInt("0x", 16)` has no digit after the prefix and is NaN |
| Colors.ParseIntNeedsDigitsAfterSign | game.js:292 | `parseInt("-", 16)` has no digit after the sign and is NaN |
| Colors.ShiftedValue | game.js:293-298 | the number read as three channels, each moved by the amount and clamped, is printed as `#` and six lowercase hex digits that denote exactly those channels |
| Colors.Shifted | game.js:291-307 | the output is `#` followed by exactly six lowercase hex digits, and each channel is the input channel shifted by the amount and clamped |
| Colors.FixedHex | game.js:298 | the six-digit formatting yields exactly the requested number of lowercase hex digits |
| Colors.HexValueOfFixed | game.js:292-298 | parsing what the formatter wrote gives back the number |
| Colors.FixedOfHexValue | game.js:292-298 | formatting a parsed hex string gives back the string, lowercased |
| Colors.ToHexLeadingOne | game.js:298 | adding `0x1000000` and dropping the first digit leaves the six-digit zero-padded form |
| Colors.DecodedHexColor | game.js:292 | for a `#` and six hex digits, `parseInt(color.replace("#",""), 16)` is the hex value of the six digits |
| Colors.PackedChannels | game.js:294-298 | shifting and masking the packed number gives back its three channels |
| Colors.FormatParseRoundTrip | game.js:291-307 | formatting three bytes and decoding the result gives back the same three channels |
| Colors.LightenNeverLowers | game.js:291-298 | `lightenColor` with a non-negative percent never lowers a channel and keeps every channel in [0,255] |
| Colors.DarkenNeverRaises | game.js:300-307 | `darkenColor` with a non-negative percent never raises a channel and keeps every channel in [0,255] |
| Colors.ZeroPercentIsIdentity | game.js:291-307 | lightening or darkening by 0 percent returns the same colour, lowercased |
| CameraShake.Shake.constructor | enhanced-camera-shake.js:5-16 | the shake starts inactive with zero intensity, duration and time left |
| CameraShake.Shake.Start | enhanced-camera-shake.js:49-66 | the new state is `Started` of the old one, and the flash is (0.3, 150) above 15, (0.2, 100) above 8, none otherwise, and none when the start is refused |
| CameraShake.Shake.Update | enhanced-camera-shake.js:69-79 | the new state is `Updated` of the old one |
| CameraShake.Shake.Reset | enhanced-camera-shake.js:119-120 | `reset` only clears `active` |
| CameraShake.CreateObstacleEatEffect | enhanced-camera-shake.js:147-185 | the shake is started with the type's parameters and the particle colour is the type's colour |
| CameraShake.StartKeepsStrongest | enhanced-camera-shake.js:49-58 | after `start` the shake is active at the stronger of the running and the new intensity; when the new intensity is in force, the time left is the full duration and the type is the new one, unless the state is unchanged |
| CameraShake.StartAcceptedRestarts | enhanced-camera-shake.js:52-58 | an accepted start sets every field to the new shake, whatever the old state was |
| CameraShake.FlashMonotone | enhanced-camera-shake.js:61-65 | a flash happens exactly above intensity 8, and a stronger shake never flashes less |
| CameraShake.UpdateCountsDown | enhanced-camera-shake.js:69-79 | for Δ ≥ 0, `update` never activates a shake, never adds time and keeps intensity and duration; an active attached shake stays active exactly while its time left minus Δ·1000 is positive |
| CameraShake.LivePreserved | enhanced-camera-shake.js:49-79 | start and update keep the invariant that an active shake has positive time left not exceeding a positive duration |
| CameraShake.TimeLeftAfter | enhanced-camera-shake.js:72-73 | n updates of an attached shake that stays active lower the time left by n·Δ·1000 |
| CameraShake.ShakeEnds | enhanced-camera-shake.js:69-79 | once n frames of a positive Δ cover a live shake's time left, n updates leave it inactive |
| CameraShake.EffectiveIntensityEasesOut | enhanced-camera-shake.js:82-83 | while live, `intensity·timeLeft/duration` lies in (0, intensity] and strictly falls as the time left falls |
| CameraShake.EatShakeOrdering | enhanced-camera-shake.js:149-171 | bomb (25, 500) is stronger and longer than lightning (20, 400), then spiky (15, 350), then every other type (10, 300, "obstacle") |
| CameraShake.EatEffectFlashes | enhanced-camera-shake.js:149-171 | a bomb or lightning flashes (0.3, 150) and every other type (0.2, 100); only a bomb gives the "explosion" shake |
| CameraShake.ParticleColorsWellFormed | enhanced-camera-shake.js:177-183 | each particle colour is a `#RRGGBB` colour, and unknown types fall back to `#e74c3c` |
| Catalog.RowIndex | game.js:2187 | the row index `min(level-1, 4)` is always a valid row, and it is `level-1` for levels 1 to 5 |
| Catalog.LevelRowsMonotone | game.js:103-109 | along the table, target score, obstacle cap and item speed never fall and the obstacle period never rises |
| Catalog.LevelRowClamped | game.js:2187 | every level from 5 on reads the last row (1200, 1200, 4, 7) |
| Catalog.RecordedTargetVersusFrameTest | game.js:2990-2996 | up to level 5 `levelUp` records the row's target, beyond it records 1800 while the frame test keeps reading 1200 |
| Catalog.SizeFactorsAgree | game.js:2292-2293 | the expiry and hit-time lives-to-size factors agree exactly for 1 to 3 lives and both lie in [0.65, 1] |
| Catalog.SizeFactorMonotone | game.js:2292-2293 | fewer lives never give a larger basket |
| Catalog.ItemTypesWellFormed | game.js:112-139 | every item type is worth at least one point and has a positive rarity |
| Catalog.ObstacleTypesWellFormed | game.js:256-283 | every obstacle type is worth at least one point and has a positive rarity |
| Catalog.FilterRarity | game.js:414-416 | the gate keeps at most the entries it is given |
| Catalog.FilterKeepsAll | game.js:414-416 | a gate whose bound is at least every rarity keeps the whole catalog |
| Catalog.ItemGateAdmitsAll | game.js:414-416 | the item gate lets the whole catalog through at every level |
| Catalog.ObstacleGateAdmitsAll | game.js:436-438 | the obstacle gate lets the whole catalog through at every level |
| Catalog.FindItem | game.js:2843 | `itemTypes.find(...) \|\| itemTypes[0]` returns an entry of the catalog with the sought name, or the first entry when none has it |
| Catalog.GoldPoints | game.js:2841-2847 | every gold type is found by name and gilding makes it worth 6 or 10 |
| Catalog.FruitPoints | game.js:2911-2917 | every normal fruit is found by name and is worth 1 or 2 |
| Catalog.PowerupChanceGrows | game.js:3176 | the power-up chance `0.15 + 0.08·level` never falls with the level and exceeds 1 from level 11 on |
| Spawning.PickIndex | game.js:523 | `floor(u·n)` is a valid index |
| Spawning.Weights | game.js:420-423 | each weight is `1/rarity` and positive |
| Spawning.WalkFromCovers | game.js:425-431 | the walk stops at the entry whose prefix interval covers the roll, and falls back to entry 0 when the roll exceeds the total |
| Spawning.WalkSelectsCoveringEntry | game.js:418-432 | for a roll in (0, total] the chosen entry's interval contains it; otherwise the first entry is chosen |
| Spawning.CoveringEntryUnique | game.js:425-431 | at most one entry's interval contains a roll |
| Spawning.Choice | game.js:412-432 | the chosen index is always a valid entry |
| Spawning.TotalWeight | game.js:418-423 | the loop sums exactly the weights |
| Spawning.SelectWeighted | game.js:412-432 | the loop that decrements the roll returns exactly the walk's choice |
| Spawning.ClearMeansApart | game.js:474-491 | a position is clear exactly when it is at least the minimum distance from every occupied x |
| Spawning.Placement | game.js:467-497 | placement uses between one and eleven draws and returns the last candidate drawn |
| Spawning.PlaceFromSpec | game.js:470-497 | from any attempt, placement returns the first clear candidate, or a fresh fallback draw after ten misses |
| Spawning.PlacementFirstClear | game.js:467-497 | a placement that stops early returns a clear position and every earlier candidate was blocked |
| Spawning.PlacementOnEmptyField | game.js:467-497 | with nothing in play the first candidate is taken |
| Spawning.PlacementInRange | game.js:467-497 | when every candidate lies in a range the placed x does too |
| Spawning.IsClear | game.js:474-491 | the scan over positions returns exactly whether the candidate is clear |
| Spawning.PlaceFromStep | game.js:470-497 | one attempt either accepts a clear candidate or moves on to the next |
| Spawning.PlaceX | game.js:467-497 | the `while (attempts < 10)` loop returns exactly `Placement` |
| Entities.CollisionIsOverlap | game.js:1949-1956 | `checkCollision` holds exactly when the entity's square and the basket share an interior point; boxes that only touch at an edge do not collide |
| Entities.DriftX | game.js:1096-1098 | for an entity no wider than the canvas, the drifted x stays in [0, 400 − size] |
| Entities.DrawMoveStaysOnCanvas | game.js:1096-1098 | the draw phase keeps the entity on the canvas, moves it down by its speed and changes nothing else |
| Entities.FrozenStaysPut | game.js:2120-2140 | a frozen entity is left exactly as it was by the draw phase and the frame step |
| Entities.ThawUndoesFreeze | game.js:2630-2660 | thawing a frozen moving entity restores its speed and clears `frozen`; a stopped one comes back at speed 2 |
| Entities.RefreezeLosesSpeed | game.js:2630-2660 | freezing twice records speed 0, so the thaw falls back to speed 2 |
| Entities.RestoreUndoesSlow | game.js:2705-2740 | restoring a slowed moving entity gives back its speed; a stopped one stays stopped |
| Entities.GildedIsGold | game.js:2840-2848 | a gilded item becomes a coin, gem or star worth 6 or 10, marked as asked, and nothing else changes |
| Entities.RevertUndoesTick | game.js:2880-2921 | a ticked item is marked, and its revert is an unmarked normal fruit worth 1 or 2; unmarked items are left alone |
| Entities.FirstPassNotReverted | game.js:2826-2921 | items gilded at activation are not marked, so the revert leaves them gold |
| Entities.PowerupDriftIsNaN | game.js:1580-1581 | as written, a power-up's drift makes its x NaN, and `checkCollision` is then false for every basket |
| Entities.DriftAgreesWithSource | game.js:1580-1581 | the corrected drift agrees with the source for every entity that has a wobble, and leaves an on-canvas power-up where it is |
| Entities.CorrectedPowerupCatchable | game.js:1580-1581 | with the corrected drift an on-canvas power-up that lies on a basket still collides with it after the drift |
| Rules.ItemEntry | game.js:412-432 | the chosen item type is worth at least one point |
| Rules.EntriesThroughGate | game.js:412-454 | choosing through the level gate picks the same type as choosing over the whole catalog |
| Rules.EntriesAdmitted | game.js:412-454 | the chosen item and obstacle types are among those the level admits |
| Rules.NewItem | game.js:456-519 | `createFallingItem` consumes draws and yields an unfrozen, ungilded fruit worth at least one point |
| Rules.NewPowerup | game.js:521-581 | `createPowerup` consumes draws and yields an unfrozen power-up |
| Rules.NewObstacle | game.js:583-642 | `createObstacle` consumes draws and yields an unfrozen obstacle worth at least one point |
| Rules.Refill | game.js:3150-3153 | pushing n items lengthens the list by n |
| Rules.RefillExtends | game.js:3150-3153 | pushing keeps the items already there and adds only items worth a point |
| Rules.Refilled | game.js:3150-3153 | the refill changes only the items and the cursor, keeps the earlier items, and keeps every item worth a point |
| Rules.StartBasket | game.js:3092-3097 | `startGame` puts the basket at 200 minus half its old width, sizes it 80×60 and clears its power-up flag, keeping y and speed |
| Rules.GoldKeepsPoints | game.js:2840-2921 | gilding, ticking and reverting keep an item worth at least one point |
| Rules.GoldFirstAll | game.js:2826-2849 | the activation pass keeps the number of items and their points, and takes one draw per item |
| Rules.GoldTickAll | game.js:2880-2896 | a tick keeps the number of items and their points |
| Rules.GoldRevertAll | game.js:2908-2921 | the revert keeps the number of items and their points |
| Rules.Effect | game.js:2354-2929 | the per-type effect keeps the level and the falling power-ups |
| Rules.ActivatePowerup | game.js:2333-2929 | `activatePowerup` keeps the level and the falling power-ups |
| Rules.ItemStep | game.js:2143-2195 | one index of the item pass keeps the pool size and never lowers the level |
| Rules.BonusStep | game.js:2198-2236 | one index of the power-up pass keeps the level and either leaves the falling power-ups as they are or splices out exactly the entry at that index; Properties.PowerupCatchActivates gives the full behaviour |
| Rules.Hurt | game.js:2268-2318 | a hit does not touch the obstacle list itself |
| Rules.ItemPassUnfold | game.js:2143-2195 | the item pass runs one index, stops on a level-up, and otherwise goes on with the next lower index |
| Rules.ObstaclePassUnfold | game.js:2240-2324 | the obstacle pass runs one index, stops on game over, and otherwise goes on with the next lower index |
| Session.MapEach | game.js:2630-2646 | the loop over the entities applies the transform to each of them |
| Session.TotalPoints | game.js:2430-2445 | the front-to-back loop adds up exactly the points of the entities |
| Session.DrawAll | game.js:2826-2849 | the loop that draws per entity gives exactly `DrawMap` |
| Session.SelectItem | game.js:412-432 | `selectItemWithIntelligence` returns exactly the specified item choice |
| Session.SelectObstacle | game.js:434-454 | `selectObstacleWithIntelligence` returns exactly the specified obstacle choice |
| Session.Game.constructor | game.js:79-160 | the page loads with score 0, level 1, 3 lives, target 100, speed 1, no power-up and an 80×60 basket at (170, 520) |
| Session.Game.CreateFallingItem | game.js:456-519 | the factory returns exactly `NewItem` and advances the cursor |
| Session.Game.CreatePowerup | game.js:521-581 | the factory returns exactly `NewPowerup` and advances the cursor |
| Session.Game.CreateObstacle | game.js:583-642 | the factory returns exactly `NewObstacle`, halving speed under an active `timeSlow` |
| Session.Game.PushItems | game.js:3150-3153 | the push loop leaves exactly `Refilled` |
| Session.Game.ChangeGameSpeed | game.js:3928-3931 | the new state is `ChangeGameSpeed` of the old one |
| Session.Game.ResetGameSpeed | game.js:3934-3937 | the new state is `ResetGameSpeed` of the old one |
| Session.Game.MoveBasket | game.js:1959-1978 | the new state is `MoveBasket` of the old one |
| Session.Game.TouchMoveBasket | game.js:1980-1994 | the new state is `TouchMoveBasket` of the old one |
| Session.Game.LevelUp | game.js:2936-2997 | the new state is `LevelUp` of the old one |
| Session.Game.StartGame | game.js:3056-3153 | the new state is `StartGame` of the old one |
| Session.Game.PauseGame | game.js:3234-3235 | the new state is `PauseGame` of the old one: only the pause flag flips |
| Session.Game.ContinueToNextLevel | game.js:3213-3214 | the new state is `ContinueToNextLevel` of the old one: only the pause flag is cleared |
| Session.Game.ActivatePowerup | game.js:2333-2929 | the new state is `ActivatePowerup` of the old one |
| Session.Game.Preempt | game.js:2335-2346 | the new state is `Preempt` of the old one |
| Session.Game.ApplyBlast | game.js:2355-2497 | the new state is `BlastEffect` of the old one |
| Session.Game.ApplyExtraLife | game.js:2499-2535 | the new state is `ExtraLifeEffect` of the old one |
| Session.Game.ApplyGiant | game.js:2604-2611 | the new state is `GiantEffect` of the old one |
| Session.Game.ApplyFreeze | game.js:2630-2645 | the new state is `FreezeEffect` of the old one |
| Session.Game.ApplyTimeSlow | game.js:2683-2716 | the new state is `TimeSlowEffect` of the old one |
| Session.Game.ApplyDoubleTrouble | game.js:2745-2753 | the new state is `DoubleTroubleEffect` of the old one |
| Session.Game.ApplyGoldRush | game.js:2818-2849 | the new state is `GoldRushEffect` of the old one |
| Session.Game.RevertFreeze | game.js:2648-2662 | the new state is `RevertFreeze` of the old one |
| Session.Game.RevertTimeSlow | game.js:2720-2742 | the new state is `RevertTimeSlow` of the old one |
| Session.Game.RemoveShadow | game.js:2790-2814 | the new state is `RemoveShadow` of the old one |
| Session.Game.EndInvincibility | game.js:2517-2519 | the new state is `EndInvincibility` of the old one |
| Session.Game.GoldRushTick | game.js:2880-2896 | the new state is `GoldRushTick` of the old one |
| Session.Game.RevertGoldRush | game.js:2902-2925 | the new state is the corrected `RevertGoldRush` of the old one |
| Session.Game.SpawnObstacleTick | game.js:3161-3170 | the new state is `SpawnObstacleTick` of the old one |
| Session.Game.ContinuedObstacleTick | game.js:3219-3225 | the new state is `ContinuedObstacleTick` of the old one, with the cap of the row read when the interval started |
| Session.Game.SpawnPowerupTick | game.js:3173-3183 | the new state is `SpawnPowerupTick` of the old one |
| Session.Game.Frame | game.js:2035-2330 | the new state is `Frame` of the old one |
| Session.Game.CountDown | game.js:2059-2085 | the new state is `CountDown` of the old one |
| Session.Game.UpdateShake | game.js:3845-3859 | the screen shake becomes `UpdateScreenShake` of the old one and nothing else changes |
| Rules.ScreenShakeCountsDown | game.js:3845-3859 | for a frame of Δ ≥ 0 the update never starts a shake, never adds time and keeps intensity and duration; an active shake loses Δ·1000 and stays active exactly while time is left |
| Rules.ScreenShakeTimeLeftAfter | game.js:3845-3859 | after n frames that leave the shake active, its time left has fallen by n·Δ·1000 |
| Rules.ScreenShakeEnds | game.js:3837-3859 | a shake started by `startScreenShake` (active with time left) has stopped once n frames of positive Δ cover its time left |
| Session.Game.AdvanceAll | game.js:2120-2140 | the new state is `Advance` of the old one |
| Session.Game.Hit | game.js:2145-2170 | the collision test is the basket test, or the shadow-basket test while `doubleTrouble` is active |
| Session.Game.ItemPass | game.js:2143-2195 | the reverse-index loop leaves exactly `ItemPassFrom` from the last index |
| Session.Game.BonusPass | game.js:2198-2236 | the reverse-index loop leaves exactly `BonusPassFrom` from the last index |
| Session.Game.ObstaclePass | game.js:2240-2324 | the reverse-index loop leaves exactly `ObstaclePassFrom` from the last index |
| Session.Game.TakeHit | game.js:2280-2318 | the new state and the game-over flag are exactly `Hurt` of the old state |
| Session.Game.GameOverPause | game.js:3000-3001 | the new state is `GameOver` of the old one |
| Particles.Survivors | game.js:332-346 | the survivors are at most the particles given |
| Particles.SurvivorsAreKept | game.js:338-346 | every surviving particle is alive and within 20 of the canvas |
| Particles.SurvivorsKeepAllLiving | game.js:332-346 | when every stepped particle is kept, the survivors are all of them, stepped, in order |
| Particles.CappedKeepsNewest | game.js:372-374 | the cap keeps at most 200 particles, and they are the newest ones |
| Particles.ParticleList.constructor | game.js:79-100 | the list starts empty |
| Particles.ParticleList.Update | game.js:327-376 | the list becomes the capped survivors of the old list, stepped by Δ·60 |
| Invariants.StartGameEstablishesValid | game.js:3056-3153 | after `startGame` the session is valid, with score 0, level 1, 3 lives, target 100, nothing but five items in play, no power-up, the mute flag kept and the game speed kept or 1 when unset |
| Invariants.PausedFrameOnlyRecordsTime | game.js:2035-2046 | a paused frame only records the timestamp |
| Invariants.FramePreservesValid | game.js:2035-2330 | a frame keeps score ≥ 0, lives ≤ 3, at most one active power-up, the pool of five items, at most one power-up falling and the obstacle cap, and leaves a game with no lives paused if it was so before |
| Invariants.MotionPreservesValid | game.js:2046-2140 | the draw phase, countdown and movement keep the session valid |
| Invariants.CountDownKeepsValid | game.js:2059-2085 | the countdown keeps the session valid |
| Invariants.ItemPassPreservesValid | game.js:2143-2195 | the item pass keeps the session valid and the lives unchanged |
| Invariants.BonusPassPreservesValid | game.js:2198-2236 | the power-up pass keeps the session valid and the pause flag, and never takes a life |
| Invariants.ObstaclePassPreservesValid | game.js:2240-2324 | the obstacle pass keeps the session valid, and a game that had lives or was paused ends with lives or paused |
| Invariants.ObstacleStepPreservesValid | game.js:2244-2322 | one obstacle index costs at most one life, stops only on a game over with no lives and paused, and goes on only with a life left after a loss |
| Invariants.HurtPreservesValid | game.js:2280-2318 | a hit keeps the session valid, takes one life, and ends the game, pausing it, exactly when no lives are left |
| Invariants.ActivatePreservesValid | game.js:2333-2929 | `activatePowerup` keeps the session valid |
| Invariants.LevelUpPreservesValid | game.js:2936-2997 | `levelUp` keeps the session valid |
| Invariants.SpawnObstacleTickKeepsValid | game.js:3161-3170 | the obstacle interval of `startGame` keeps the session valid |
| Invariants.ContinuedObstacleTickKeepsValid | game.js:3219-3225 | the obstacle interval of `continueToNextLevel`, whose row is that of a level no later than the current one, keeps the session valid |
| Invariants.SpawnPowerupTickKeepsValid | game.js:3173-3183 | the power-up interval keeps the session valid |
| Invariants.RevertFreezeKeepsValid | game.js:2648-2662 | the freeze timeout keeps the session valid |
| Invariants.RevertTimeSlowKeepsValid | game.js:2720-2742 | the time-slow timeout keeps the session valid |
| Invariants.RemoveShadowKeepsValid | game.js:2790-2814 | the double-trouble timeout keeps the session valid |
| Invariants.EndInvincibilityKeepsValid | game.js:2517-2519 | the invincibility timeout keeps the session valid |
| Invariants.GoldRushTickKeepsValid | game.js:2880-2896 | a gold-rush tick keeps the session valid |
| Invariants.RevertGoldRushKeepsValid | game.js:2902-2925 | the gold-rush timeout, as written and as corrected, keeps the session valid |
| Invariants.GameSpeedKeepsValid | game.js:3928-3937 | the speed buttons keep the session valid |
| Invariants.InputKeepsValid | game.js:1959-1994 | keys and touches keep the session valid |
| Invariants.ResumeKeepsValid | game.js:3213-3235 | `pauseGame` and `continueToNextLevel` keep the session valid, and both leave a finished game with no lives running |
| Invariants.SumPointsAtLeastCount | game.js:2430-2445 | items worth at least a point each are worth at least their number together |
| Properties.CatchScoresAndRefills | game.js:2171-2191 | a catch adds the points, doubled under `multiplier`, splices the item and appends a new one, and stops with a level-up exactly when the score reaches the clamped row's target |
| Properties.MissReplacesInPlace | game.js:2192-2194 | an item past the bottom is replaced at the same index and nothing else changes |
| Properties.FrozenIsIgnored | game.js:2143-2247 | frozen items and obstacles are skipped by the passes |
| Properties.PowerupCatchActivates | game.js:2198-2236 | a power-up caught by either basket is activated with its type and duration and spliced out, one past the bottom is only spliced out, and any other is left as is |
| Properties.ResumedGameOverHitsAgain | game.js:2311-2320 | unpausing a finished game with the obstacle that ended it still on the basket takes lives to −1 and ends the game again |
| Properties.HitCostsLifeAndScore | game.js:2268-2322 | without a shield a hit costs a life and `5·points` of score floored at 0, shrinks the basket by lives unless `giant`, shakes the screen, and on the last life ends the game before the splice |
| Properties.ShieldAbsorbsHits | game.js:2270-2279 | under `shield` or invincibility the obstacle pass changes no score, lives, basket or pause |
| Properties.CountDownEnds | game.js:2059-2085 | the countdown subtracts Δ·1000; at zero or below the power-up ends with `giant`, `timeSlow` and `doubleTrouble` undone; above it only the time changes |
| Properties.CountDownIdle | game.js:2059 | without an active power-up the countdown does nothing |
| Properties.ActivateMakesSoleActive | game.js:2335-2351 | after `activatePowerup(t, d)` exactly `t` is active with `d` left; a pre-empted `giant` leaves an 80×60 basket and a pre-empted `doubleTrouble` no shadow |
| Properties.EffectKeepsBookkeeping | game.js:2354-2929 | no effect touches the active type, time left, level or pause, and only `giant`, `doubleTrouble` and `goldRush` touch the basket, shadow and intervals |
| Properties.ExtraLifeCapsLives | game.js:2499-2535 | `extraLife` adds a life and invincibility below 3 lives and 50 points otherwise, so lives stay at most 3 |
| Properties.BlastScoresEverything | game.js:2430-2490 | `blast` scores every item at multiplier 1, removes every obstacle, refills the pool to five and shakes (20, 500) |
| Properties.GiantEnlarges | game.js:2604-2611 | `giant` makes the basket 1.5 times its life-based size in place |
| Properties.FreezeThenThaw | game.js:2630-2662 | freezing stops every item, and the thaw gives each its speed back |
| Properties.SlowThenRestore | game.js:2683-2742 | `timeSlow` halves every item's speed, and its timeout restores every speed |
| Properties.ShadowComesAndGoes | game.js:2745-2814 | `doubleTrouble` adds a basket-sized shadow 30 up and left, and its timeout removes it |
| Properties.LevelUpAdvances | game.js:2936-2997 | `levelUp` increments the level and pauses; the target becomes the row's target up to level 5 and 1800 beyond; difficulty never drops |
| Properties.GameSpeedClamped | game.js:3928-3937 | the game speed always lands in [0.25, 2], a step inside the range can be undone, and reset sets exactly 1 |
| Properties.ArrowKeysMoveBasket | game.js:1959-1978 | left moves by the basket speed when x > 0, right when the basket's right edge is inside the canvas, the two undo each other, and `m` toggles mute |
| Properties.PausedIgnoresInput | game.js:1959-1981 | while paused, keys and touches change nothing |
| Properties.TouchKeepsBasketOnCanvas | game.js:1980-1994 | a touch centres the basket under the finger, clamped to the canvas |
| Properties.ObstacleSpawnGate | game.js:3161-3170 | an obstacle is appended exactly when unpaused and under the level's cap, so the cap is never exceeded |
| Properties.PowerupSpawnGate | game.js:3173-3183 | a power-up is appended exactly when unpaused, none is falling and the roll is under the level's chance, so at most one falls |
| Findings.GoldRushLeaksWhenPreempted | game.js:2880-2927 | as written, a gold rush pre-empted by another power-up keeps its interval and its timeout changes nothing |
| Findings.GoldRushLeaksAfterExpiry | game.js:2902-2925 | as written, a gold rush ended by the countdown keeps its interval and its timeout changes nothing |
| Findings.TickGildsAll | game.js:2880-2896 | each tick of a leaked interval gilds every fruit not yet gilded |
| Findings.GoldRushReleasedWhenPreempted | game.js:2880-2927 | with the corrected timeout a pre-empted gold rush releases its interval |
| Findings.GoldRushReleasedAfterExpiry | game.js:2880-2927 | with the corrected timeout a gold rush ended by the countdown releases its interval |
| Findings.GoldRushActivation | game.js:2818-2880 | activating a gold rush gilds the items in one pass from the current cursor, starts one more interval and makes `goldRush` active |
| Findings.GoldRushRoundTrip | game.js:2818-2927 | activating a gold rush and running its corrected timeout before any tick releases the interval and leaves as many items, all fruit and none marked; the items gilded at activation were never marked, so they stay gold, worth 6 or 10 |
| Findings.GoldRushTickedRoundTrip | game.js:2818-2927 | with one interval tick between activation and the corrected timeout, every item ends an unmarked normal fruit worth 1 or 2, and the interval is released |
| Findings.FirstPassGildsUnmarked | game.js:2820-2843 | the activation pass turns every unmarked fruit into a gold type worth 6 or 10 and leaves it unmarked |
| Findings.RevertLeavesUnmarked | game.js:2908-2921 | the revert leaves every item that is not a marked fruit exactly as it was |
| Findings.RevertPlainsMarked | game.js:2908-2921 | the revert turns every marked fruit into an unmarked normal fruit worth 1 or 2 |
| Findings.RevertUnmarksAll | game.js:2908-2921 | the revert leaves no fruit marked |

## Left out

- Canvas drawing (`drawBackground`, both `drawBasket`s, the drawing in `drawFallingItems` and `drawObstacles`, `drawStar`, `drawDiamond`, the drawing half of `updateParticles`). It renders and decides nothing. The draw phase's movement of entities (drift and fall) is modelled, because the rules read the result.
- DOM overlays, CSS keyframes and UI text (`updateUI`, the styling in `levelUp` and `gameOver`, `addSpeedControls`, `updateSpeedLabel`, `createHeartExplosion`, `createBasketShrinkEffect`, `resizeCanvas`).
- Audio (`playSound`, the `sounds` object). It is a browser API.
- Timer scheduling. The `setInterval` spawners and the `setTimeout` reverts run as host callbacks. The model gives each callback body as an operation (`SpawnObstacleTick`, `SpawnPowerupTick`, `RevertFreeze`, `RevertTimeSlow`, `RemoveShadow`, `EndInvincibility`, `GoldRushTick`, `RevertGoldRush`) that can be applied between frames in any order. The periods of the timers are not modelled.
- The performance monitor and its reassignment of `createParticles`, and the `requestAnimationFrame` swap for `timeSlow`. Both replace a function at run time; only `timeSlowFactor` is kept.
- Which intervals are running. `gameOver` clears both spawn intervals, and only `continueToNextLevel` or a restart starts one again. The model does not track this, so its spawn ticks must only be applied while the matching interval runs. The obstacle interval that `continueToNextLevel` restarts is `ContinuedObstacleTick`. Its period is not modelled.
- The magnet pull. It uses `Math.sqrt` distances, which exact reals do not model.
- The random offsets, rotation and transform strings in `cameraShake.update` and `updateScreenShake`, and the DOM side effects of `flash` and `reset`.
- `cameraShake.init` and the page-load wiring. `CameraShake.Shake` takes whether a target element is attached as a constructor argument instead.
- Particle creation (`createParticles`) and the particles' text, size, colour and opacity. The particle list models only the position, speed and life that decide survival, and it lives apart from the session because no session rule reads it.
- The stray top-level statements at the end of `game.js` (lines 4308-4338). They refer to an undefined `obstacle` and are not a behaviour.
- The test harnesses `testGame` and `testRenderingImprovements`, the event-listener wiring and the mobile controls.
- options.js. It applies themes and skins through CSS and `localStorage`.
- Colors.Decoded: reads the hex digits exactly. JavaScript's `parseInt` rounds a number of more than 13 hex digits to a double before `>>` and `&` read it. Colour strings that long are not used by the game.
- Colors.Amount: computes `Math.round(2.55 * percent)` as `(255·percent + 50) div 100` on exact numbers. In IEEE doubles `2.55·p` falls just below the half for p in {50, 90, 170, 190}, so JavaScript rounds one lower there. The game only calls the helpers with 20, 30 and 40, where the two agree.
- Spawning.Choice: the weighted walk runs on exact reals, so it does not model floating-point rounding of the running sum or of the roll.
- Entities.DriftX: models the corrected drift, which treats a missing `wobble` as 0 (see Findings). The as-written drift is `Entities.DriftAsWritten`. As written, a drawn power-up's x is NaN, so it is never caught and never blocks item placement; the frame and the spawners here follow the corrected program, where a power-up on the basket is caught and one within 45 of a candidate x blocks it.
- Rules.RevertGoldRush: the rest of the model uses the corrected gold-rush timeout (see Findings). The as-written timeout is `Rules.RevertGoldRushAsWritten`.
- Session.Game.RevertGoldRush: it is the corrected timeout, for the same reason.
- The number of running gold-rush intervals is a count, `goldRushIntervals`. Which interval a timeout clears is not tracked, since all intervals do the same thing.

## Findings

| source | as written | input that shows it | evidently intended | confidence | as-written member | corrected member |
|---|---|---|---|---|---|---|
| game.js:1580-1581 | power-ups are created without `wobble`, so `item.x += item.wobble` makes `x` NaN, `Math.max(0, Math.min(NaN, …))` stays NaN, and `checkCollision` compares NaN and is always false | any power-up on its first drawn frame, for example one falling straight onto the basket | power-ups do not drift, so they stay where they are and can be caught | high, not executed | Entities.PowerupDriftIsNaN | Entities.CorrectedPowerupCatchable |
| game.js:2902-2925 | the gold-rush timeout clears its interval only if `goldRush` is still the active type | once power-ups can be caught (the first finding fixed; as written no power-up is ever activated): activate `goldRush`, then catch any other power-up before it ends (or let the frame countdown end it first); the interval is never cleared and keeps gilding every new item for the rest of the page | the timeout always clears its interval and reverts the items only while `goldRush` is active | high, not executed | Findings.GoldRushLeaksWhenPreempted | Findings.GoldRushReleasedWhenPreempted |
