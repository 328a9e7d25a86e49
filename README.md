# City Drifter in Dafny

A model of the game logic of City Drifter, a top-down drift-racing game built
on Phaser. The model covers the parts of the game that are sequential state
updates with clamps, thresholds and counters:

- the arcade drift tick of `src/components/game.tsx` (module `ArcadeDrift`):
  - handbrake edge detection, the surface-grip lookup and weight transfer;
  - the kick and hold drift entries and the drift exit;
  - the drift power, momentum and duration ramps, and the target-slip shaping;
  - the style meter with its duration bonus, drift-zone doubling, cap and decay;
  - the boost countdown and the three boost tiers;
  - the steering history queue and the tire-mark queue;
  - the coin and boost pickups;
- the second drift variant embedded as text in `setup-game.js`:
  - keyboard and pointer controls, the speed clamp and the drift score and multiplier (`ClassicDrift`);
  - banking on exit with a reward boost, and the collision penalty (`ClassicDrift`);
  - the `MM:SS` clock formatter (`TimeFormat`);
- the `CarController` of `game/objects/car-controller.ts` (`CarControl`):
  - stats from upgrade levels, clamped input setters and the keyboard reading;
  - speed, drift and heading integration;
  - the boost and its expiry;
- the economy:
  - the shop's upgrade prices, purchases, buttons and colour picker (`Shop`);
  - the game-over settlement of cash and high score (`GameOver`);
  - the in-game scoring of drifts, crashes and pickups, and the throttled reports to the page (`GameScoring`);
- the map and the traffic:
  - the road grid and building layout of `game/objects/city-map.ts` (`CityLayout`);
  - the lane entry points, spawning, driving and respawning of `game/objects/traffic-system.ts` (`Traffic`);
- the saved profile record and its defaults, and the collectible table (`PlayerProfile`). `JsMath` holds the JavaScript and Phaser numeric helpers (`Math.min`, `Math.max`, `Math.sign`, `Phaser.Math.Clamp`, `%`).

Modelling choices:

- Each scene or object that updates its fields in place is a Dafny `class`. Its methods change the fields named in their `modifies` clauses.
- Each per-frame update is also a pure step function on a state record (`Tick`, `Physics`, `Purchase`, `Settle`, ...). The class method's `ensures` ties the new fields to that function, and lemmas prove what the game promises about the function.
- Loops that fill or trim a list are `while` loops over `seq` fields, proved against recursive or comprehension definitions.
- Random choices enter as parameters. These are the surface grid, the building picks, the spawn picks and the tire-mark roll.
- The frame clock, the frame delta and the keys also enter as parameters.

## Model

| member | source | states |
|---|---|---|
| JsMath.Clamp | game/objects/car-controller.ts:103 | `Phaser.Math.Clamp` returns a value inside `[min, max]`, and returns the value itself when it already lies there |
| PlayerProfile.WithLevel | game/scenes/shop-scene.ts:254 | setting one upgrade's level sets exactly that level and leaves the other two upgrades as they were |
| PlayerProfile.DefaultPlayerData | game/utils/player-data.ts:4-13 | a new player starts with no money, a high score of 0 and every upgrade at level 0 |
| PlayerProfile.CollectibleTypes | game/objects/collectibles-system.ts:8-12 | there are three collectible kinds, all worth a positive value, and only the coin has no duration |
| ArcadeDrift.ReadControls | src/components/game.tsx:481-493 | left wins over right for steering (-1, 1 or 0 with neither), up gives full throttle, down a 0.75 brake, space the handbrake and shift the boost |
| ArcadeDrift.InitialCarState | src/components/game.tsx:299-346 | the initial car record satisfies every invariant of the tick, is not drifting, has an empty style meter and normal boost power |
| ArcadeDrift.GridKey | src/components/game.tsx:497-498 | the grid key is the 100-unit cell that contains the point |
| ArcadeDrift.SurfaceGrip | src/components/game.tsx:499 | a cell with no entry (or a 0 entry) has grip 1.0, a stored grip is used as is, and positive stored grips give positive grip |
| ArcadeDrift.GripBounds | src/components/game.tsx:500-511 | the current grip stays between 42% and 100% of the surface grip for every speed and every steering in [-1, 1] |
| ArcadeDrift.GripFallsWithSpeed | src/components/game.tsx:500-511 | grip never rises as speed rises |
| ArcadeDrift.ShiftWeight | src/components/game.tsx:513-545 | only weight transfer, last steering and the response delay change; a steering change above 0.1 restarts the 150 ms delay and halves the effective steering; otherwise a running delay counts down by the frame time and still halves it, and once the delay has run out the steering passes whole and the delay stays put; the weight transfer moves toward `-steer / 2` without overshooting when `3 * dt <= 1`, and stays put in an empty frame |
| ArcadeDrift.WeightTransferBounded | src/components/game.tsx:513-520 | weight transfer stays within half a unit either way when steering is in range and the frame does not overshoot |
| ArcadeDrift.CountDownBoost | src/components/game.tsx:549-556 | the boost timer counts down by the frame time, and on reaching 0 it is zeroed and power drops to 1; nothing else changes |
| ArcadeDrift.PreludeFacts | src/components/game.tsx:481-578 | before the drift decision the frame records the handbrake edge (just pressed iff held now and not last frame), counts down the boost, takes the measured speed and keeps every invariant and all drift and style state |
| ArcadeDrift.ApplyKick | src/components/game.tsx:606-637 | the kick starts a drift in the direction of the steer with power and slip 0.2, zero duration and momentum, and marks the kick as applied |
| ArcadeDrift.FallbackDirection | src/components/game.tsx:675-678 | the drift direction is the sign of the steer, else the previous direction, else 1, and is never 0 |
| ArcadeDrift.BaseTargetSlipRange | src/components/game.tsx:688-706 | above the drift speed the unshaped target slip lies in [0, 0.7] |
| ArcadeDrift.SteerShapingRange | src/components/game.tsx:707-718 | the steering shaping factor lies in [0.6, 1.4]; it is at least 1 when steering with the drift and at most 1 when counter-steering |
| ArcadeDrift.TargetSlipShaping | src/components/game.tsx:707-718 | counter-steering keeps at least 60% of the target, steering with the drift adds at most 40%, and with near-neutral steering the target is at least 0.3 |
| ArcadeDrift.TargetSlipBelowOne | src/components/game.tsx:688-718 | while a drift is held above the drift speed the shaped target slip lies in [0, 1) |
| ArcadeDrift.SmoothingStepInUnit | src/components/game.tsx:721-723 | in a frame of at most a third of a second at a speed of at most 800, one smoothing step moves at most the whole distance to the target |
| ArcadeDrift.HeldSlipInUnit | src/components/game.tsx:721-723 | in such frames the slip angle of a held drift stays in [0, 1], though the game itself clamps nothing |
| ArcadeDrift.StyleBaseNonnegative | src/components/game.tsx:883-891 | the base style rate is nonnegative |
| ArcadeDrift.StyleRateZoneDoubles | src/components/game.tsx:897-900 | the same drift earns exactly twice the style rate inside a drift zone |
| ArcadeDrift.StyleRateMonotone | src/components/game.tsx:883-900 | the style rate is nonnegative, never falls as the drift lasts longer, and stops growing once the duration bonus saturates at 5 seconds |
| ArcadeDrift.RampDriftFacts | src/components/game.tsx:664-685 | entering or holding a drift keeps the invariants; power and momentum ramp up to at most 1, duration grows by exactly the frame time from 0 on entry, and the direction follows a steer harder than 0.5 |
| ArcadeDrift.SlideFacts | src/components/game.tsx:721-723 | the slide changes only the slip angle and the tire smoke, and keeps the invariants in range |
| ArcadeDrift.AccrueStyleGrows | src/components/game.tsx:909-912 | one frame's style accrual never lowers the meter, never passes the 1000-point limit, and changes nothing else |
| ArcadeDrift.HoldDriftFacts | src/components/game.tsx:662-927 | the hold branch leaves the car drifting in a nonzero direction with power and momentum at most 1, duration grown by the frame time, the style meter not lower, and boost and speed untouched |
| ArcadeDrift.KickThenHold | src/components/game.tsx:606-685 | a kicked drift leaves its first frame with duration equal to the frame time, power `min(0.2 + 2.5 dt, 1)` and the kick's direction |
| ArcadeDrift.ExitDrift | src/components/game.tsx:928-935 | leaving a drift clears the drift and kick flags and the momentum, marks the car as just drifting, and keeps the style meter for a later boost |
| ArcadeDrift.BoostTier | src/components/game.tsx:1008-1024 | 750 style points or more buy (2.0, 3 s), 500 to 749 buy (1.75, 2 s), and anything less buys (1.5, 1 s) |
| ArcadeDrift.BoostTierMonotone | src/components/game.tsx:1008-1024 | more style never buys a weaker or shorter boost, and every boost is stronger than normal power |
| ArcadeDrift.ActivateBoost | src/components/game.tsx:1004-1039 | activation installs the tier's power and duration, pays the floored style meter into the score and empties the meter |
| ArcadeDrift.CoastFacts | src/components/game.tsx:1104-1230 | normal driving rolls the speed down by 20 per second without throttle, decays the style meter by 10 per second down to 0, relaxes a positive slip angle by 2 per second down to 0, adds 0.5 per second exactly when the car is above 150 with effective steering beyond 0.8 and grip below 0.7 (the only way the slip angle rises), and keeps the invariants |
| ArcadeDrift.DriveNormallyFacts | src/components/game.tsx:995-1231 | normal driving spends the style meter on a boost exactly when the boost key is held with at least 250 points and no boost running; otherwise score and boost are unchanged and the meter decays |
| ArcadeDrift.BranchFacts | src/components/game.tsx:581-1231 | the drift decision keeps the invariants, never lowers the score, leaves the car drifting iff the handbrake is held above 80, and sets the kick flag only through a kick whose guard held |
| ArcadeDrift.BranchDrifting | src/components/game.tsx:662-995 | for every state the car leaves the decision drifting exactly when the hold branch ran |
| ArcadeDrift.TickPreservesConsistency | src/components/game.tsx:475-1305 | a frame in range keeps every invariant of the car record and never lowers the score |
| ArcadeDrift.TickDriftingIff | src/components/game.tsx:487-672 | after a frame the car drifts iff the handbrake is held and the measured speed exceeds 80, and the handbrake edge is recorded |
| ArcadeDrift.TickKickGuard | src/components/game.tsx:581-637 | the kick flag is newly set only when the handbrake was just pressed, the speed exceeds 80 and the steer exceeds 0.1, and the drift then points the way of the steer |
| ArcadeDrift.TickBoostPowerFallsOnlyOnExpiry | src/components/game.tsx:549-556 | boost power falls only in a frame where the countdown runs out |
| ArcadeDrift.TickScoreOnlyFromBoost | src/components/game.tsx:1004-1039 | the score moves only when a boost is activated (not drifting, boost key held, at least 250 style points, no boost left) and then grows by the floored meter, which empties |
| ArcadeDrift.TrimHistory | src/components/game.tsx:586-595 | the trim drops only a prefix of the history, every dropped sample is older than one second, and the first kept sample is within the second |
| ArcadeDrift.TrimHistoryKeepsWindow | src/components/game.tsx:586-595 | the sample just pushed always survives, and for a history in time order every kept sample lies within the last second |
| ArcadeDrift.MarkPair | src/components/game.tsx:844-869 | a left and a right mark are laid, with alpha at most 0.85 and scale in [1, 3] |
| ArcadeDrift.CapTracks | src/components/game.tsx:870-876 | the cap leaves at most 300 tire marks, the newest ones, and leaves a list already within the cap alone |
| ArcadeDrift.ArcadeScene.constructor | src/components/game.tsx:299-353 | the scene starts with the initial car record, a score of 0, empty queues and the generated surface grid |
| ArcadeDrift.ArcadeScene.RecordSteering | src/components/game.tsx:586-595 | the loop pushes the sample and shifts the history down to the one-second window |
| ArcadeDrift.ArcadeScene.LayTireMarks | src/components/game.tsx:844-876 | the loop pushes a pair of marks and shifts the oldest until at most 300 remain |
| ArcadeDrift.ArcadeScene.Step | src/components/game.tsx:475-1305 | the car and score become the frame's tick, which keeps a consistent car consistent and never lowers the score for frames in range |
| ArcadeDrift.ArcadeScene.Update | src/components/game.tsx:475-1305 | a frame applies the tick to the car and score, keeps them consistent in range, records the steering twice and lays marks only while drifting, keeping at most 300 marks |
| ArcadeDrift.ArcadeScene.CollectCoin | src/components/game.tsx:1306-1338 | a coin adds 100 points |
| ArcadeDrift.ArcadeScene.CollectBoost | src/components/game.tsx:1339-1374 | a boost pickup sets five seconds of double power, replacing any boost, and keeps the invariants |
| ClassicDrift.ToggleMode | setup-game.js:936-937 | the space key swaps keyboard and pointer control, so toggling twice restores the mode |
| ClassicDrift.KeyControls | setup-game.js:1072-1076 | up accelerates, down reverses at half strength, left wins over right, and shift drifts |
| ClassicDrift.WrapOnce | setup-game.js:1089-1093 | an angle difference in [-pi, pi] is kept, and one within three half-turns each way is brought into [-pi, pi] |
| ClassicDrift.MouseControls | setup-game.js:1078-1109 | pointer steering stays in [-1, 1] and throttle in [0, 1], with no throttle within 100 of the pointer and full throttle from 300; with no pointer every control is zero |
| ClassicDrift.ReadControls | setup-game.js:1068-1111 | in either mode steering lies in [-1, 1], throttle in [-0.5, 1], and the drift input is 0 or 1 and needs shift |
| ClassicDrift.InitialCarState | setup-game.js:842-857 | the initial car record satisfies every invariant, is not drifting, uses keyboard control and stands still |
| ClassicDrift.CountDownBoost | setup-game.js:1113-1120 | the boost timer counts down, and on expiry it is zeroed and the boost factor drops to 1 |
| ClassicDrift.Throttle | setup-game.js:1122-1137 | throttle force is `300 * boostFactor` per unit input, and the speed is clamped to `[-200, 350 * boostFactor]` |
| ClassicDrift.CoastingDecays | setup-game.js:1131-1137 | without throttle a car inside the clamp loses exactly 3% of its speed and never speeds up |
| ClassicDrift.StartDrift | setup-game.js:1147-1157 | a new drift points the way of the steer, with zero time and score and a multiplier of 1 |
| ClassicDrift.DriftPoints | setup-game.js:1189-1198 | a frame's drift points are nonnegative for a nonnegative frame time |
| ClassicDrift.DriftZoneDoubles | setup-game.js:1189-1206 | a drift zone exactly doubles the drift points |
| ClassicDrift.MultiplierAt | setup-game.js:1238-1240 | the drift multiplier stays in [1, 5] |
| ClassicDrift.MultiplierMonotone | setup-game.js:1238-1240 | a longer drift never has a smaller multiplier, and from 8.5 seconds it is the full 5 |
| ClassicDrift.AccrueDriftFacts | setup-game.js:1182-1240 | a held drift keeps the invariants, grows time by the frame time, never lowers the score or the multiplier, keeps the drift factor at most 1.8, and leaves speed and boost alone |
| ClassicDrift.RewardBoost | setup-game.js:1355-1360 | a reward boost lasts between 1.5 and 3 seconds and has a factor between 1.4 and 1.8 |
| ClassicDrift.Banked | setup-game.js:1324-1325 | a banked drift is worth at least its floored drift score |
| ClassicDrift.ResetDrift | setup-game.js:1397-1402 | the reset clears every drift field and nothing else |
| ClassicDrift.ExitDriftFacts | setup-game.js:1320-1402 | on exit a scored drift banks `floor(score * multiplier)`, a reward boost is granted iff the drift lasted over a second with over 100 points, and every drift field is reset |
| ClassicDrift.SpeedStepFacts | setup-game.js:1113-1137 | the boost and speed part of a frame keeps the invariants, keeps the speed inside the clamp, and neither starts nor stops a drift |
| ClassicDrift.TickPreservesConsistency | setup-game.js:1063-1423 | a frame with a nonnegative delta keeps every invariant and never lowers the score |
| ClassicDrift.TickDriftingIff | setup-game.js:1144-1157 | the car drifts after a frame iff the drift input is held, the speed exceeds 120 either way and the steer exceeds 0.2; a new drift starts in the steer's direction |
| ClassicDrift.TickDriftScoreGrows | setup-game.js:1176-1240 | while a drift is held its score never falls and the game score is untouched |
| ClassicDrift.TickBanksOnExit | setup-game.js:1320-1402 | letting go banks the drift, grants the reward boost exactly when earned and resets every drift field |
| ClassicDrift.Collide | setup-game.js:959-1061 | an impact of at most 5 changes nothing; a harder one resets the drift |
| ClassicDrift.CollideFacts | setup-game.js:961-1044 | a hard impact costs `floor(10 * impact)` points, never below zero, and banks a running drift; the invariants hold and a nonnegative score stays nonnegative |
| ClassicDrift.ClassicScene.constructor | setup-game.js:842-857 | the scene starts with the initial car record and a score of 0 |
| ClassicDrift.ClassicScene.ToggleControlMode | setup-game.js:936-937 | the space key flips the control mode and nothing else |
| ClassicDrift.ClassicScene.Update | setup-game.js:1063-1423 | a frame applies the tick to the car and the score, and keeps the invariants and the score's growth for a nonnegative delta |
| ClassicDrift.ClassicScene.HandleCollision | setup-game.js:959-1061 | a collision applies the penalty and drift reset, keeps the invariants and keeps a nonnegative score nonnegative |
| TimeFormat.Digits | setup-game.js:1635 | `toString` of a nonnegative integer is a nonempty string of digits, one digit exactly below 10 |
| TimeFormat.PadStart2 | setup-game.js:1635 | padding keeps the string at the end and adds zeros in front up to length 2 |
| TimeFormat.TruncRem | setup-game.js:1633 | the remainder agrees with the mathematical one for nonnegative numbers |
| TimeFormat.ParseDigitsOfDigits | setup-game.js:1635 | reading back the digits of a number gives the number |
| TimeFormat.ParseDigitsLeadingZeros | setup-game.js:1635 | leading zeros do not change the value of a digit string |
| TimeFormat.PaddedField | setup-game.js:1635 | a padded field is all digits, at least two long (exactly two below 100), and reads back as its number |
| TimeFormat.ClockRoundTrip | setup-game.js:1635 | a clock built from two fields, seconds below 100, reads back as those fields |
| TimeFormat.FormatTimeRoundTrip | setup-game.js:1630-1636 | for a nonnegative time the clock is `MM:SS` with seconds below 60, and minutes times 60 plus seconds is the whole seconds elapsed |
| CarControl.StatsFor | game/objects/car-controller.ts:49-54 | top speed is `300 + 30 * engine`, acceleration `200 + 20 * engine`, handling `2.5 + 0.3 * handling` and drift factor `0.7 + 0.06 * tires` |
| CarControl.StatsMonotone | game/objects/car-controller.ts:49-54 | every upgrade level gives usable stats, and a higher level never makes a stat worse |
| CarControl.ReadKeys | game/objects/car-controller.ts:134-168 | without a keyboard nothing changes; otherwise a held up or down key sets throttle or brake to 1, a released one drops an input of exactly 1 to 0 and leaves any other value alone, left gives steering -1, right alone gives 1, steering is 0 iff neither arrow is held, and drift follows shift |
| CarControl.ButtonInputsOverridden | game/objects/car-controller.ts:134-168 | with a keyboard, inputs of 0 or 1 (all the on-screen buttons ever write) are erased by the next key read: the result is that of the keys alone, and all zeros when no key is held |
| CarControl.ReadKeysInRange | game/objects/car-controller.ts:134-168 | reading the keys keeps every input in its range |
| CarControl.NextInputs | game/objects/car-controller.ts:134-168 | the key-reading statements compute the keyboard reading |
| CarControl.SpeedStep | game/objects/car-controller.ts:172-190 | the new speed lies in `[0, maxSpeed * boost]` |
| CarControl.CoastingLosesTwoPercent | game/objects/car-controller.ts:176-178 | with neither throttle nor brake the car loses exactly 2% of its speed |
| CarControl.BrakingSlowsMore | game/objects/car-controller.ts:180-186 | braking never leaves the car faster than coasting would |
| CarControl.DriftStep | game/objects/car-controller.ts:196-221 | the car drifts after the step iff drift input, speed above 40% of the top speed and a steer above 0.5 hold; the direction is set only on entry |
| CarControl.SteeringForceBounds | game/objects/car-controller.ts:193 | the turning rate never exceeds the handling stat and keeps at least half of the steering's share of it |
| CarControl.Turn | game/objects/car-controller.ts:224-236 | turning changes only the heading |
| CarControl.PhysicsFacts | game/objects/car-controller.ts:170-242 | after a step speed lies in `[0, maxSpeed]`, drifting holds iff the drift test passes, the drift factor stays in `[0, 5 * tire stat]`, growing by 2 and shrinking by 4 per second, and the heading turns by the steering force, 1.5 times while drifting |
| CarControl.PhysicsFromSteps | game/objects/car-controller.ts:170-242 | the speed, drift and heading steps composed give the physics step and keep the motion in range |
| CarControl.NextSpeed | game/objects/car-controller.ts:172-190 | the speed statements compute the speed step |
| CarControl.NextDrift | game/objects/car-controller.ts:196-221 | the drift statements compute the drift step |
| CarControl.Integrate | game/objects/car-controller.ts:170-242 | the physics statements compute the physics step and keep the motion in range |
| CarControl.CarController.constructor | game/objects/car-controller.ts:49-54 | a new controller has the stats of its upgrades, stands still, has no input and no boost |
| CarControl.CarController.SetThrottleInput | game/objects/car-controller.ts:102-104 | throttle is clamped to [0, 1] |
| CarControl.CarController.SetBrakeInput | game/objects/car-controller.ts:106-108 | brake is clamped to [0, 1] |
| CarControl.CarController.SetSteeringInput | game/objects/car-controller.ts:110-112 | steering is clamped to [-1, 1] |
| CarControl.CarController.SetDriftInput | game/objects/car-controller.ts:114-116 | drift is clamped to [0, 1] |
| CarControl.CarController.ApplyBoost | game/objects/car-controller.ts:118-131 | a boost overwrites the factor and replaces any pending expiry, so boosts do not stack |
| CarControl.CarController.ExpireBoost | game/objects/car-controller.ts:128-131 | expiry ends boosting and restores a factor of 1 |
| CarControl.CarController.HandleInput | game/objects/car-controller.ts:134-168 | the inputs become the keyboard reading of the old inputs and stay in range |
| CarControl.DriftThenTurn | game/objects/car-controller.ts:192-242 | the drift and turn steps that follow the speed step keep the motion in range and the speed unchanged, set drifting iff the drift test passes, move the drift factor within its bounds, and turn the heading by the steering force |
| CarControl.CarController.ApplyPhysics | game/objects/car-controller.ts:170-242 | the motion becomes the physics step at the current boost and stays in range |
| CarControl.CarController.Update | game/objects/car-controller.ts:66-84 | a frame reads the keys, then integrates over the frame in seconds, and leaves the boost alone |
| Shop.Pow2 | game/scenes/shop-scene.ts:245 | powers of two are at least 1 |
| Shop.UpgradeCost | game/scenes/shop-scene.ts:242-246 | a price is infinite exactly from level 5 and otherwise at least 500 |
| Shop.CostDoubles | game/scenes/shop-scene.ts:242-246 | the first level costs 500 and each later one twice the one before |
| Shop.PurchaseFacts | game/scenes/shop-scene.ts:248-265 | an affordable purchase lowers money by exactly the price, never below zero, and raises that level by exactly one; an unaffordable one changes nothing; colour, high score and the other upgrades never change |
| Shop.PurchaseKeepsProfileSound | game/scenes/shop-scene.ts:248-265 | purchasing never takes a level past 5, never raises money and never makes it negative |
| Shop.MaxingOutCosts15500 | game/scenes/shop-scene.ts:242-265 | taking an upgrade from 0 to 5 costs 15500 in all, and a further purchase does nothing |
| Shop.ButtonFor | game/scenes/shop-scene.ts:142-181 | the button reads "MAXED" and is grey exactly from level 5 |
| Shop.ClickableIffPurchaseSucceeds | game/scenes/shop-scene.ts:142-181 | a button is clickable iff it is green iff clicking it would buy the upgrade |
| Shop.ColorOptions | game/scenes/shop-scene.ts:184-190 | five colours are on offer, all with different hex values |
| Shop.Highlighted | game/scenes/shop-scene.ts:278-285 | only buttons whose hex is the car's colour are outlined |
| Shop.PickingHighlightsOnlyThatColor | game/scenes/shop-scene.ts:267-285 | choosing a colour outlines that button and no other |
| Shop.ShopScene.constructor | game/scenes/shop-scene.ts:30-32 | the scene holds the saved profile |
| Shop.ShopScene.PurchaseUpgrade | game/scenes/shop-scene.ts:248-265 | the profile becomes the result of the purchase rule, and it changes exactly when the button drawn for that upgrade was clickable |
| Shop.ShopScene.SelectCarColor | game/scenes/shop-scene.ts:267-270 | the colour is replaced and money, upgrades and high score stay |
| GameOver.FinalScore | game/scenes/game-over-scene.ts:20 | a missing score counts as 0 and a present one is used as is |
| GameOver.CashEarned | game/scenes/game-over-scene.ts:24 | the cash is the whole number of hundreds in the score, never negative for a nonnegative score |
| GameOver.SettleFacts | game/scenes/game-over-scene.ts:18-33 | settling adds exactly the cash earned, makes the high score the larger of the old one and the run's score, and keeps upgrades and colour |
| GameOver.SettleNeverCosts | game/scenes/game-over-scene.ts:24 | a nonnegative score never costs money |
| GameOver.GameOverScene.Init | game/scenes/game-over-scene.ts:18-33 | the scene keeps the final score and hands the settled profile to be saved; its money grows by exactly the cash figure the scene draws |
| GameScoring.DriftPointsFacts | game/scenes/game-scene.ts:123-127 | a drifting frame earns the whole part of a tenth of drift factor times speed, which is never negative |
| GameScoring.PenalizeFacts | game/scenes/game-scene.ts:140 | a crash takes 500 points, or all of them when there are fewer, so the score never goes below zero |
| GameScoring.CollectFacts | game/scenes/game-scene.ts:149-173 | of the spawnable collectibles only the coin scores, and it scores exactly 100 |
| GameScoring.ReportsSpaced | game/scenes/game-scene.ts:111-115 | over any run of frames, reports to the page are more than 100 ms apart and each falls on a frame |
| GameScoring.ReportsExtend | game/scenes/game-scene.ts:111-115 | one more frame adds a report exactly when more than 100 ms have passed since the latest report, which ties `Reports` to what `GameScene.Report` does each frame |
| GameScoring.GameScene.constructor | game/scenes/game-scene.ts:62-66 | the scene starts with a score of 0, clocks at the start time, a fresh car with the saved upgrades standing still with no input and no boost, and 20 traffic cars, car i spawned with pick i at its entry point |
| GameScoring.GameScene.Report | game/scenes/game-scene.ts:108-115 | the game clock becomes the time since the start, a report of the score and game time is added only after more than 100 ms, and the scene's reports so far stay exactly `Reports` over the frame times, one per reporting frame, stamped with its game time |
| GameScoring.GameScene.Update | game/scenes/game-scene.ts:106-133 | a frame reports only after more than 100 ms, steps car and traffic, and adds the drift points only while drifting; the scene invariant keeps the reports equal to `Reports` over all frame times so far |
| GameScoring.GameScene.HandleCollision | game/scenes/game-scene.ts:135-147 | a collision applies the crash penalty |
| GameScoring.GameScene.HandleCollectible | game/scenes/game-scene.ts:149-173 | a coin adds its value, a boost boosts the car by its value for 3000 ms, and a multiplier changes nothing |
| CityLayout.RoadLinesAreThreeModFive | game/objects/city-map.ts:42-63 | the road rows and columns are exactly the tile indices below 40 that leave remainder 3 when divided by 5 |
| CityLayout.RoadTiles | game/objects/city-map.ts:42-63 | there are eight horizontal then eight vertical roads, on tile lines 3, 8, ..., 38 |
| CityLayout.CellOfIndex | game/objects/city-map.ts:65-107 | the building index of a slot in a block is the block's position in the column-by-column order times 16 plus the slot |
| CityLayout.BuildingsAvoidRoads | game/objects/city-map.ts:78-107 | every building stands on the map and neither of its tile indices is a road line |
| CityLayout.CellsDistinct | game/objects/city-map.ts:65-107 | no two buildings share a cell |
| CityLayout.BuildingAngles | game/objects/city-map.ts:101-102 | every building is turned by a whole number of quarter turns |
| CityLayout.CityMap.constructor | game/objects/city-map.ts:42-107 | the map holds the sixteen roads and 1024 buildings, one per block cell, each placed with its own pick |
| CityLayout.CityMap.CreateRoadGrid | game/objects/city-map.ts:42-63 | the loops lay the sixteen road tiles in order |
| CityLayout.CityMap.AddBuildings | game/objects/city-map.ts:65-76 | the loops lay 1024 buildings, the n-th in its cell with the n-th pick |
| CityLayout.CityMap.CreateBuildingBlock | game/objects/city-map.ts:78-107 | a block adds exactly 16 buildings, centred in the non-road cells of the block |
| CityLayout.Slot | game/objects/city-map.ts:82-86 | the slot count below a non-road offset maps back to that offset |
| Traffic.LanesOfRoad | game/objects/traffic-system.ts:75-113 | the four entry points of each road are its east, west, south and north lanes |
| Traffic.RoadPositions | game/objects/traffic-system.ts:75-113 | there are 32 entry points |
| Traffic.RoadPositionsOnRoads | game/objects/traffic-system.ts:75-113 | every entry point is on the map's edge, heading inward, a quarter or three quarters across a road tile |
| Traffic.Respawn | game/objects/traffic-system.ts:147-165 | a respawned car's sprite stands on its data record's position and keeps its sprite type |
| Traffic.NewCarInRange | game/objects/traffic-system.ts:115-145 | a spawned car starts at its entry point with a speed from 50 to 150 |
| Traffic.RespawnInRange | game/objects/traffic-system.ts:147-165 | a respawned car's data names exactly the picked entry point and carries the picked speed, and the car is inside the widened world with a speed from 50 to 150 |
| Traffic.DriveRespawnsIffOut | game/objects/traffic-system.ts:39-69 | a car is respawned exactly when its frame move takes it more than 200 pixels outside the world, and otherwise moves along its lane keeping its data |
| Traffic.DriveKeepsCarInRange | game/objects/traffic-system.ts:39-69 | after a frame every car is inside the widened world, with a speed from 50 to 150 and data naming an entry point |
| Traffic.SpawnFacts | game/objects/traffic-system.ts:115-145 | spawning appends exactly one car at the picked entry point when there are entry points and nothing otherwise, and keeps every car in range |
| Traffic.TrafficSystem.constructor | game/objects/traffic-system.ts:12-37 | a new system has the 32 entry points and 20 cars, all in range, car i being the new car of pick i at its picked entry point |
| Traffic.TrafficSystem.GenerateRoadPositions | game/objects/traffic-system.ts:75-113 | the loops push the 32 entry points in order |
| Traffic.TrafficSystem.SpawnTrafficCar | game/objects/traffic-system.ts:115-145 | one spawn appends the picked car, and keeps every car in range |
| Traffic.TrafficSystem.Update | game/objects/traffic-system.ts:39-69 | each car is driven for the frame, respawning with its own pick when it leaves the widened world, and every car stays in range |

## Left out

- Trigonometry and vector kinematics are not modelled. This covers velocity from rotation, `Math.cos`, `Math.sin`, `Math.atan2` and `Math.sqrt`, the lateral-grip correction, slide-velocity blending, the kick impulse and the car's rotation. The magnitude of the arcade car's velocity enters each frame as `measuredSpeed`. The pointer's angle difference and distance enter as given numbers.
- Phaser's physics engine is not modelled: drag, maximum velocity, colliders and overlaps. Collisions and pickups are method calls.
- Rendering and audio are not modelled: particles, tweens, text popups, tints, camera shake, the HUD and sounds.
- The arcade exit tween of the slip angle is not modelled, nor angular velocity or the suspension visuals.
- The averaged steering that the arcade tick computes from `inputHistory` is not modelled; only the queue itself is.
- Random choices are parameters: the surface grid, the building picks, the spawn picks and the tire-mark roll. The random surface generation itself is not modelled.
- The profile's localStorage and JSON plumbing is not modelled, nor the `fs` code, the CSS and JSX template strings, the React shells or the menu scene. Scenes receive and return the profile record.
- The collectibles system's own update and spawning is not modelled. Only its table of kinds is.
- The on-screen touch buttons (`game/scenes/game-scene.ts:200-239`) are not modelled as event listeners. They only write 0 or 1 (steering -1, 0 or 1) through the input setters. When a keyboard exists, the next `handleInput` overwrites steering and drift and drops a throttle or brake of 1 back to 0 unless its key is held, so a button press never reaches the physics step (`ButtonInputsOverridden`).
- The traffic group is created with `collideWorldBounds: true` (`game/objects/traffic-system.ts:17`). The physics engine then most likely keeps every traffic body inside the 0 to 5120 pixel world, so the 200-pixel respawn test of `update` may never fire in play. The model moves cars without that clamp, as the update code itself does, and so exercises the respawn path.
- The arcade score popups are not modelled.
- The traffic spawn timer (every 2000 ms) is a call of `SpawnTrafficCar`, and the controller's boost timer is a call of `ExpireBoost`.
- Traffic headings are the four exact right angles, with cosine and sine of those angles taken as exact. The group of sprites and the `trafficCars` list are one `seq`.
- Road tile sprite angles are recorded but not checked against any drawing.
- ArcadeDrift.ArcadeScene.Update: consistency is stated only for frames of at most a third of a second with a body speed of at most 800. Outside that range a smoothing step of the slip angle can overshoot, and the game itself never clamps the slip angle.
- ArcadeDrift.HeldSlipInUnit: the slip bound holds only in that frame range, because the game never clamps the slip angle.
- CarControl.CarController.ApplyBoost: requires a positive factor, because the top speed is divided by the boosted maximum. The only caller passes 1.5.
- ClassicDrift.TickPreservesConsistency: stated for a nonnegative frame delta only.
- GameOver.FinalScore: a `NaN` score, and falsy values other than a missing score, are not modelled.
- PlayerProfile.WithLevel: upgrade levels are natural numbers. The game only ever writes whole, nonnegative levels.
- Floating point is modelled as exact real arithmetic. JavaScript numbers are IEEE doubles.
