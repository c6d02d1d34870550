# mechanics — a verified model of the game's simulation and bookkeeping

This project models the logic core of *mechanics*, a small ball-physics
puzzle game:

- **Balls** (`ball.dfy`). A ball has a lifecycle state, a physical property
  (radius, position, velocity, movement kind) and a type. It also keeps a
  short trail of recent positions in a bounded circular queue
  (`circular_queue.dfy`), fed every fourth recorded position.
- **Contacts** (`ball_interaction.dfy`). This covers:
  - how two balls touch, from the outside or from inside a bowl;
  - the action each ball of a contact receives;
  - the per-tick hit map that lists, for every running ball, the actions of
    all its contacts;
  - the velocity after a hit.
- **The preparing phase** (`preparing.dfy`). Entering the phase seeds nine
  balls. Each tick runs only when the refresh timer fires: it promotes or
  moves every ball, then drains the animation-completion events, then
  despawns the entities those events mark.
- **Game status** (`status.dfy`). The tick counter and the history of the
  current attempt.
- **The leaderboard** (`leaderboard_model.dfy`, `leaderboard_record.dfy`). A
  map from level code to record: at most nine histories, a best clear, and a
  cleared flag. The global-leaderboard record's statistics are looked up by
  name.
- **Panel text** (`action.dfy`). Times, counts and scores rendered as
  zero-padded text.
- **Key bindings** (`key_binding.dfy`). The keys pressed in a frame and the
  binding mode become an ordered list of navigation requests.

How the Rust code is represented:

- Mutable Rust objects (`Ball`, `CircularQueue`, `GameStatus`,
  `LeaderboardModel`, `KeyBindingConfig`) are Dafny classes whose methods
  update their fields.
- Loops over the ECS query become `for` loops with invariants.
- A ball component is inserted on its root entity, so the entity a query
  yields for a ball, and the entity of a tween event on it, is the ball's
  root entity.
- Each method is proved against a specification function. The source's
  promises are proved as lemmas about those functions.
- `f32` arithmetic is modelled over `real`. Distances are compared squared,
  so no square root is needed.

## Model

| member | source | states |
|---|---|---|
| Balls.BuildAbility | src/game/ball.rs:77-83 | the ability built for a ball type reports that type |
| Balls.Ball.BallTypeOf | src/game/ball.rs:140-142 | the reported type is the one whose ability the ball holds: building the ability for it gives back the ball's ability |
| Balls.Ball.constructor | src/game/ball.rs:120-139 | a new ball is `Created`, with zero animation parameters, counter 0 and an empty trail of capacity 5; it reports the type it was built with, keeps its property and entities, and satisfies the trail invariant |
| Balls.Ball.UpdatePos | src/game/ball.rs:143-146 | only the position changes, to the given one; state and animation parameters are kept; that position is recorded for the trail and the trail invariant is kept |
| Balls.Ball.UpdateV | src/game/ball.rs:147-149 | only the velocity changes; state, animation parameters, counter and recorded positions are untouched, and a valid ball stays valid |
| Balls.Ball.Travel | src/game/ball.rs:156-161 | a movable ball moves to `pos + v` and records it; a fixed or bowl ball stays put and records nothing; velocity, radius and kind never change; the returned value is the new position |
| Balls.Ball.Jump | src/game/ball.rs:162-165 | the position becomes the given one whatever the movement kind, and is recorded for the trail |
| Balls.Ball.RecordTailing | src/game/ball.rs:169-176 | with counter 0 the point is pushed (trail = last 5 of old trail + point) and the counter becomes 3, otherwise the counter drops by one; the trail always equals the last 5 sampled positions of everything recorded |
| Balls.SampledAt | src/game/ball.rs:169-176 | the sampled positions are exactly the 1st, 5th, 9th, … recorded ones, and there are ⌈n/4⌉ of them |
| Balls.SampledStep | src/game/ball.rs:169-176 | one more recorded position enters the trail exactly when the count so far is a multiple of 4 |
| Balls.CounterStep | src/game/ball.rs:169-176 | the countdown is 0 exactly when the next position is sampled, and after a step it is reset to 3 or decremented |
| Balls.Ball.TriggerAnime | src/game/ball.rs:177-179 | the state becomes exactly the given one; property, animation parameters, counter and recorded positions are untouched, and a valid ball stays valid |
| Balls.Ball.TriggerStarting | src/game/ball.rs:180-183 | the ball ends in `Starting`; property, animation parameters, counter and trail untouched |
| Balls.Ball.TriggerEnding | src/game/ball.rs:187-190 | the ball ends in `Ending`; property, animation parameters, counter and trail untouched |
| CircularQueues.LastN | src/game/ball.rs:134 | the last `n` elements: exactly `n` of them when the sequence is longer, the whole sequence otherwise, in the original order |
| CircularQueues.LastNAppend | src/game/ball.rs:171 | pushing onto a queue already cut to `n` equals cutting the whole history to `n`: full queues evict their oldest element |
| CircularQueues.CircularQueue.WithCapacity | src/game/ball.rs:134 | a fresh queue of the requested capacity is empty |
| CircularQueues.CircularQueue.Push | src/game/ball.rs:171 | the contents become the last `capacity` elements of the old contents followed by the new one |
| BallInteraction.DetectHit | src/game/ball_interaction.rs:62-89 | without a bowl: never `Inside`, and `Outside` iff the distance is at most `r1 + r2`; with a bowl: never `Outside`, and `Inside` iff the distance exceeds the difference of the radii |
| BallInteraction.DetectHitSymmetric | src/game/ball_interaction.rs:62-89 | swapping the two balls does not change the classification |
| BallInteraction.HitStatusOf | src/game/ball_interaction.rs:102-136 | the status is success exactly for a stone and a goal, failure exactly for a stone and a bomb, in either order, and hit otherwise |
| BallInteraction.HitStatusSymmetric | src/game/ball_interaction.rs:102-136 | the type-pair table is symmetric |
| BallInteraction.AppendAction | src/game/ball_interaction.rs:160-169 | the ball's list grows by exactly the new action at its end; every other ball's list is unchanged; the ball becomes a key |
| BallInteraction.PushAction | src/game/ball_interaction.rs:160-164 | the get-or-insert push equals appending the action to the ball's list |
| BallInteraction.RecordHitAction | src/game/ball_interaction.rs:91-170 | each ball of the contact gets one more action: success for both on stone and goal, failure for both on stone and bomb, otherwise a move carrying the hit type and the opponent's entity and property |
| BallInteraction.CollectSnapshots | src/game/ball_interaction.rs:31-34 | the collected balls are the query's balls in iteration order |
| BallInteraction.ScanRow | src/game/ball_interaction.rs:40-57 | the inner loop records the contacts of ball `i` with every later running ball, in order |
| BallInteraction.BuildHitMap | src/game/ball_interaction.rs:28-60 | the loops compute the hit map of the running balls' contacts |
| HitMapTheory.HitMapContents | src/game/ball_interaction.rs:36-58 | every ball's list holds exactly the actions of its contacts with the other running balls, in ball order, one per contact; a ball is a key iff it has a contact; non-running balls get no entry; no other key appears |
| HitMapTheory.ContactCount | src/game/ball_interaction.rs:160-169 | a ball's list is as long as its set of contact partners |
| HitMapTheory.IdleBallNoActions | src/game/ball_interaction.rs:37-43 | a ball that is not running has no contacts |
| HitMapTheory.RowSkipsLowerPartners | src/game/ball_interaction.rs:44 | partners at or before `i` leave the map unchanged |
| HitMapTheory.ContactSymmetric | src/game/ball_interaction.rs:44-55 | with a symmetric classifier, contact between two balls does not depend on their order |
| HitMapTheory.RowDone | src/game/ball_interaction.rs:40-57 | after the inner loop of a running ball `i`, every ball's list holds its contacts among the rows done so far |
| HitMapTheory.RowsDone | src/game/ball_interaction.rs:36-58 | the outer loop keeps that invariant up to the last row |
| HitResponse.CalcVAfterHit | src/game/ball_interaction.rs:185-188 | a ball inside a bowl and moving towards the bowl keeps its velocity |
| HitResponse.ReflectionKeepsSpeed | src/game/ball_interaction.rs:184-191 | against an immovable opponent the speed is unchanged |
| HitResponse.ReflectionMirrors | src/game/ball_interaction.rs:189-190 | a reflection negates the component along the line of centres and keeps the tangential one |
| HitResponse.EqualMassesSwap | src/game/ball_interaction.rs:175-183 | for equal radii and an approach along the line of centres, the new velocity is the opponent's |
| HitResponse.ElasticFactorsBalance | src/game/ball_interaction.rs:183 | the two balls' impulse factors weighted by their masses are equal |
| HitResponse.MomentumConserved | src/game/ball_interaction.rs:182-183 | for two movable balls, total momentum (mass = radius²) is the same before and after |
| Preparing.SeedLayoutCoversEveryKind | src/game/phase/preparing.rs:53-152 | nine seeds of radius 24 at rest, one per type and movement kind, at column 100·type and row 100·kind |
| Preparing.StateEnter | src/game/phase/preparing.rs:42-154 | entering the phase switches the binding mode to `Gaming` and spawns the seed layout |
| Preparing.PropertyAfterTick | src/game/phase/preparing.rs:171-176 | velocity, radius and kind never change; only a running movable ball moves, by its velocity |
| Preparing.Advance | src/game/phase/preparing.rs:166-178 | a created ball becomes `Starting` and does not move; a running ball travels; a ball in any other state keeps state and position; animation parameters never change |
| Preparing.BallPass | src/game/phase/preparing.rs:166-178 | every ball is advanced once, in order, and gets its tick state, position and recorded positions |
| Preparing.StartEntity | src/game/phase/preparing.rs:186-190 | the ball of the event's entity runs; no other ball changes state, and no ball changes property, animation parameters or recorded positions |
| Preparing.DrainEvents | src/game/phase/preparing.rs:183-197 | a ball whose entry animation ended runs; every other ball keeps its state; no property, animation parameter or recorded position changes; the collected set is exactly the entities of the ending and effect events |
| Preparing.Despawn | src/game/phase/preparing.rs:198-202 | each collected entity that still exists is despawned exactly once, and no other |
| Preparing.StateUpdate | src/game/phase/preparing.rs:156-204 | with no timer tick no ball's state, property, animation parameters or recorded positions change and nothing is despawned; otherwise each ball gets its tick state and position, its animation parameters are kept, and the despawns are the marked entities that exist, without repeats |
| Status.GameStatus.constructor | src/game/status.rs:16-22 | the default status: no flags, mode `Setup`, default history |
| Status.GameStatus.ResetHistory | src/game/status.rs:25-27 | the history becomes the default one; flags and mode unchanged |
| Status.GameStatus.Tick | src/game/status.rs:29-31 | the history's time grows by exactly 1; nothing else changes |
| Status.GameStatus.SumbitHistory | src/game/status.rs:33-36 | sets the clear flag and the timestamp; time, controls, flags and mode unchanged |
| Leaderboard.LeaderboardModel.OpenLevel | src/game/leaderboard/model.rs:31-42 | the map gains an empty record for an absent code only |
| Leaderboard.OpenIdempotent | src/game/leaderboard/model.rs:31-42 | opening twice is opening once; the code is then present; no reported record changes |
| Leaderboard.LeaderboardModel.StoreLevelHistory | src/game/leaderboard/model.rs:43-62 | the map becomes the stored-history map; a level never opened is left alone |
| Leaderboard.StoreKeepsLevels | src/game/leaderboard/model.rs:43-62 | storing adds no level and changes no other level's record |
| Leaderboard.StoreKeepsRecordOk | src/game/leaderboard/model.rs:45-60 | at most nine histories, and a full list drops the new one; the flag only turns on, and turns on with a clear; the best only gets faster; a non-clear history leaves the best alone |
| Leaderboard.StoreKeepsMapOk | src/game/leaderboard/model.rs:43-62 | every stored record keeps those properties |
| Leaderboard.StoreAllMeaning | src/game/leaderboard/model.rs:43-62 | after any plays: the kept histories are the first nine played; cleared iff some play cleared; the best is the earliest of the fastest clears |
| Leaderboard.BestReplaced | src/game/leaderboard/model.rs:49-53 | a strictly faster clear becomes the best |
| Leaderboard.BestKept | src/game/leaderboard/model.rs:49-56 | a tie or a slower or unclear play keeps the earlier best |
| Leaderboard.FirstClear | src/game/leaderboard/model.rs:54-56 | the first clear becomes the best |
| Leaderboard.LeaderboardModel.LevelInfo | src/game/leaderboard/model.rs:63-73 | the stored record, or the empty record for an unknown code; this is the report the open and store lemmas speak about |
| LeaderboardRecords.LeaderboardRecord.Uid | src/game/leaderboard/record.rs:25-27 | a record is identified by its start time |
| LeaderboardRecords.LeaderboardRecord.Fetch | src/game/leaderboard/record.rs:29-45 | for one of the twelve accepted names, the value is the statistic listed under that name |
| LeaderboardRecords.FetchReadsNamedField | src/game/leaderboard/record.rs:29-45 | each of the twelve names reads the statistic of that name |
| LeaderboardRecords.NamesDistinct | src/game/leaderboard/record.rs:30-42 | the twelve names are pairwise different |
| LeaderboardRecords.FetchIgnoresUnlistedFields | src/game/leaderboard/record.rs:29-45 | the total stopping time and the non-statistic fields are not fetchable, and changing them changes no fetched value |
| Actions.DecRoundTrip | src/game/action.rs:34 | reading back the decimal text gives the number |
| Actions.FormatFieldText | src/game/action.rs:22-36 | a time is digits, a point, and exactly two digits, at least 7 characters; a score is three digits, a comma, and digits, at least 7 characters; counts are at least four digits; other names give at least one digit |
| Actions.TimeRoundTrip | src/game/action.rs:23-24 | the time text has at least 7 characters, a point before the last two, and without the point reads back the value |
| Actions.ScoreRoundTrip | src/game/action.rs:27-30 | the score text has at least 7 characters, a comma after the first three, and without the comma reads back the value |
| Actions.CountRoundTrip | src/game/action.rs:25-34 | counts are padded to four digits, never cut, and read back the value; unknown names show the plain number |
| Actions.TimeExample | src/game/action.rs:23-24 | 12345 renders as `0123.45` |
| Actions.ScoreExample | src/game/action.rs:27-30 | 1234 renders as `001,234` |
| Actions.CountExample | src/game/action.rs:25-34 | 7 renders as `0007` for `alpha_count`; 42 renders as `42` for an unknown name |
| KeyBinding.KeyBindingConfig.constructor | src/app/key_binding.rs:25-27 | the game starts in `Navgation` mode |
| KeyBinding.MoveByArrow | src/app/key_binding.rs:71-84 | appends the moves of the pressed arrows, in up/down/left/right order |
| KeyBinding.MoveByWsad | src/app/key_binding.rs:86-99 | appends the moves of the pressed W/S/A/D keys, in that order |
| KeyBinding.MoveByKjhl | src/app/key_binding.rs:101-114 | appends the moves of the pressed K/J/H/L keys, in that order |
| KeyBinding.HandleKeyBinding | src/app/key_binding.rs:39-69 | the requests sent are those of the mode: arrows first, then Space and Delete, W/S/A/D and K/J/H/L in navigation; one Action in gaming; nothing more in keyboard mode |
| KeyBinding.MovesForMeaning | src/app/key_binding.rs:71-84 | each request is a move of a pressed binding; there are no more than bindings, and one per binding when all are pressed |
| KeyBinding.AliasesMatchArrows | src/app/key_binding.rs:86-114 | W/S/A/D and K/J/H/L send exactly what the corresponding arrows would |
| KeyBinding.ArrowsFirst | src/app/key_binding.rs:44 | in every mode the arrow moves come first |
| KeyBinding.GamingSendsOneAction | src/app/key_binding.rs:56-65 | in gaming mode any pressed subset of Space, Backspace, Delete and Escape gives exactly one Action, never a Cancel, and only arrow moves |
| KeyBinding.KeyboardOnlyArrows | src/app/key_binding.rs:66-67 | keyboard mode sends only the arrow moves |
| KeyBinding.NavigationConfirmAndCancel | src/app/key_binding.rs:46-52 | navigation mode sends one Action iff Space is pressed and one Cancel iff Delete is pressed |

## Left out

- Rendering, animation and audio are left out. This covers sprite spawning, lyon paths, tween lenses, `BallAnimeLens`, `build_fixed_bg_path`, the per-type `setup_*_anime` hooks and colours beyond the type-to-colour table. `trigger_starting` and `trigger_ending` keep only their state change.
- `Ball::update_anime` takes the ball by shared reference and only schedules drawing, so the tick does not model it. `update_anime_effect` is defined outside these files; it is assumed to touch no ball and is not modelled.
- `Ball::create_sprite` and the entity handles are out: ECS spawning is not modelled. Entities are natural numbers.
- `f32` is modelled as exact reals. Rounding, NaN and infinities are not modelled.
- HitResponse.CalcVAfterHit requires `Defined`: the centres must differ and, against a movable opponent, the masses must not both be zero. Otherwise the source divides by zero and yields NaN or infinity.
- HitResponse.CalcVAfterHit: only the keep-velocity case is in its own contract. The impulse and reflection branches are stated by the lemmas beside it.
- HitMapTheory.HitMapContents requires the balls to have distinct entities, which every ECS query guarantees.
- The hit-map theory is stated for any symmetric classifier. `DetectHit` is that classifier in the game.
- The commented-out older velocity formula is left out.
- `ball_interaction.rs` matches on a `Stone` type that `ball.rs` calls `Bullet`. The model treats them as one variant.
- No code applies a hit action, so none is modelled.
- Bevy commands, queries, plugins, schedules and timers are left out. The timer's `just_finished` is a boolean parameter. The tween-completion events are a sequence parameter. The entities that still exist are a set parameter.
- `ANIME_EFFECT_DONE_EVENT` is defined outside these files, so its value is a parameter.
- `state_enter` sets the game status to `StatusMode::Playing`, a variant `status.rs` does not define, so that assignment is left out.
- `state_enter`'s `despawn_descendants` of the dynamic root is left out. The model returns the seeds to spawn.
- Status.GameStatus.SumbitHistory: the formatted local time is a parameter, because clocks are not modelled.
- Status.GameStatus.Tick requires the time to stay below 2^32. Past that the source panics in debug builds and wraps in release builds.
- Persistence (bincode files, config directories) is left out.
- The random position and the field rectangle in `action.rs` are left out: they need an RNG and constants not defined here.
- `setup_input_mapping` is library configuration only.
- Level data (`level_builder.rs`) is left out.
- LeaderboardRecords.LeaderboardRecord.Fetch requires one of the twelve names; any other name panics in the source.
- The trail's circular queue comes from the external `circular_queue` crate. Its source is not part of this model. It is modelled as an array ring that keeps the newest `capacity` elements, which is how `ball.rs` uses it. The crate's iterators (newest first) are not modelled, because the core never reads the trail.
