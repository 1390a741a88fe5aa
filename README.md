# Space-Shooter: a verified model of the game core

This project models the core of Space-Shooter, a pygame arcade game. The player's ship
moves over a fixed 1280x720 playfield and fires lasers at meteors. Meteors fall from the top
edge and spin. A laser that hits a meteor leaves an explosion and scores one point. Background
stars never move. The model covers:

- the five sprites: ship, laser, explosion, meteor and star;
- the shooter screen that owns them: reset, event handling, the update of all sprites, the
  collision passes, and the K_0/K_1 resets;
- the sprite-sheet slicer and the sprite groups of the asset store;
- the state machines of the GUI widgets: the button's press/release click, the slider's
  pointer/value mapping, and the text box's focus, editing, overflow offset and cursor blink.

Each source file becomes one module:

| module | source file |
|---|---|
| `Geometry` | pygame's `FRect`/`Rect`, and Python's `int()`/`round()` on exact reals |
| `ShipSprites` | scripts/objects/ship.py |
| `MeteorSprite` | scripts/objects/meteor.py |
| `StarSprite` | scripts/objects/stars.py |
| `AssetStore` | scripts/basics/assets.py |
| `Shooter` | canvas/space_shooter.py |
| `Gui` | scripts/basics/gui.py |

The sources update objects in place, so the sprites, the asset store, the world and the widgets
are classes, and their methods have `modifies` frames. Most methods state their new state field
by field or as a relation between two values of the world. The relation for the whole sprite pass
is partial; the UpdateSprites lines under "## Left out" say what it leaves open. Pure functions give the
reference behaviour: Timer, Fire and Shots for the gun; ClampToScreen for the edge clamps;
Groupcollide for the laser/meteor pass; ClickStep for the button; Edited for the text box. Lemmas
prove the properties the game relies on from those functions.

Sprites and groups are handled like this:

- Every sprite gets a fresh id when it is created, and its id is registered in `sprites`.
- A sprite group is a set of ids.
- Sprites join groups only at creation, and ids grow with creation. So ascending id order is
  pygame's insertion order.
- Killing a sprite removes its id from every group.

The world keeps an invariant through every operation. The ship is registered and always in
`all_sprites`. Every id in a group is registered. `meteor_sprites` and `laser_sprites` are
exactly the meteors and the lasers of `all_sprites`. No sprite object is registered under two
ids (`Owned`).

`all_sprites.update(dt)` is specified over a `View`: a value holding the registry, the next id,
the three groups, the score and a `Pose` per sprite.

- A pose is the part of a sprite that its own update changes. For a meteor that is its
  rectangle, angle and image; for a laser, its rectangle; for an explosion, its frame index and
  image.
- `Next` gives the pose after one update, and `DiesFrom` says whether that update kills the
  sprite. Both take the same formulas as the sprites' own update methods.
- `OneStep` is what one sprite's update does to the view. `Updated` is what the whole pass
  does: every sprite of the starting `all_sprites` took its `Next` pose and is out of the groups
  if `DiesFrom` held. Otherwise it is still there, unless it is a meteor or a laser and the score
  rose, that is, unless some laser's groupcollide can have killed it (`Survivors`).
- A ghost map `poses` tracks the poses through the pass, so that a sprite updated earlier keeps
  its recorded pose while later sprites are updated.

The world's inputs are taken as parameters:

- Positions and delta times are exact reals. Ticks are integers.
- Every random draw is a parameter whose precondition is the range the source draws from.
- Pixel-mask overlap is two fixed predicates on rectangles.
- The rotated meteor image's size is a fixed function of the angle.

Some behaviours of the code are easy to misread:

- **One laser, many meteors.** Each `Laser.update` runs `groupcollide` over all lasers and all
  meteors, by their rectangles after this laser's move.
  - Within one pass, a laser kills every meteor it overlaps that is still alive.
  - If anything collided, exactly one explosion appears, at the updating laser's mid-top.
  - The score rises by one per laser update that collided, not per collision. `UpdateLaser`
    states this through `LaserOutcome`, and `crashed` holds iff some pair overlapped.
- **The last frame is never drawn.** An explosion is killed in the same update that selects its
  last frame, and draw() runs after update(). At exactly one frame per update, the k-th update
  selects frame k in order (`UnitStepsShowEveryFrame`).
  - With 21 frames at 50 per second, the kill comes at index 20, after 0.40 s, not 0.42 s.
- **The last frame can be skipped.** With a step above one frame per update, the shown frame
  can jump over the last one. The explosion then starts another cycle (`LastFrameCanBeSkipped`).
  At a steady 1.5 frames per update (a 30 ms tick), the last of 21 frames is never shown, so
  the explosion is never killed (`SteadyStepNeverFinishes`).
- **The overflow offset lags one draw.** The text box computes its offset from the text
  rendered by the previous draw (`TextBox.Draw`).

## Model

| member | source | states |
|---|---|---|
| Geometry.Trunc | scripts/objects/ship.py:78-79 | Python's int() on a float truncates toward zero: the result is within one below a non-negative argument, and within one above a negative one |
| Geometry.RoundHalfEven | scripts/basics/gui.py:299 | Python's round() gives an integer within one half of the argument, and the even one on an exact half |
| Geometry.Moved | scripts/objects/ship.py:27 | `rect.center += direction * speed * dt`: the centre moves by exactly direction * speed * dt, and the width and height are kept |
| Geometry.RectAtCenter | scripts/objects/ship.py:8 | get_frect(center=c) has centre c and the image's size |
| Geometry.RectAtMidBottom | scripts/objects/ship.py:52 | get_frect(midbottom=p) has mid-bottom p and the image's size |
| ShipSprites.Axis | scripts/objects/ship.py:24-25 | a direction component is in {-1, 0, 1}; it is 0 iff both keys or neither are held, and 1 iff only the positive key is held |
| ShipSprites.Normalized | scripts/objects/ship.py:26 | the zero direction stays zero; any other direction gets unit length and keeps the sign of each component |
| ShipSprites.NormalizedIsUnit | scripts/objects/ship.py:26 | with diag the positive square root of one half, every non-zero direction comes out of length one |
| ShipSprites.NoInputNoMovement | scripts/objects/ship.py:24-27 | with no key held the ship does not move, for any speed and delta time |
| ShipSprites.ClampPerAxis | scripts/objects/ship.py:29-36 | the four edge clamps act on each axis independently (low edge first, then high edge) and keep the size |
| ShipSprites.ClampKeepsShipOnScreen | scripts/objects/ship.py:29-36 | after the clamps, bottom <= HEIGHT and right <= WIDTH whatever the move; top >= 0 and left >= 0 whenever the ship fits, so a ship that fits is on screen |
| ShipSprites.ClampIdempotent | scripts/objects/ship.py:29-36 | a rectangle already on screen is not moved, and clamping twice equals clamping once |
| ShipSprites.TimerOnlyRearms | scripts/objects/ship.py:16-20 | shoot_timer never changes shoot_time and never disarms; afterwards shoot holds iff it held or the cooldown has elapsed |
| ShipSprites.FireLeavesGunCold | scripts/objects/ship.py:38-45 | a laser fires iff the key was just pressed and the gun was ready; firing leaves shoot False and shoot_time at the firing tick after the same update's shoot_timer; otherwise only shoot_timer acts |
| ShipSprites.ShotsSpacedByCooldown | scripts/objects/ship.py:16-45 | over any run of updates with non-decreasing ticks, consecutive shots are at least shoot_duration apart; from a cold gun none comes before shoot_time + shoot_duration, and none before the first update's tick |
| ShipSprites.DoubleTapFiresOnce | scripts/objects/ship.py:38-45 | presses at 1000, 1100, 1400 and 1416 ms fire at 1000 and 1416 only: the gun re-arms after the fire check of the update at 1400 |
| ShipSprites.Ship.constructor | scripts/objects/ship.py:8-14 | a new ship is centred on the playfield with speed 300, shoot True, shoot_time 0, shoot_duration 400 and no meteors destroyed |
| ShipSprites.Ship.ShootTimer | scripts/objects/ship.py:16-20 | the gun state after shoot_timer is Timer of the gun state before; only `shoot` may change |
| ShipSprites.Ship.Move | scripts/objects/ship.py:22-36 | direction is the normalised key direction, and the new rectangle is the old one moved by speed * dt along it and then clamped edge by edge |
| ShipSprites.Ship.Update | scripts/objects/ship.py:22-45 | the move as in Move; the new gun state and whether a laser fired follow Fire; a fired laser starts at the clamped ship's mid-top |
| ShipSprites.Laser.constructor | scripts/objects/ship.py:52-53 | a laser starts with its mid-bottom at the given point (the ship's mid-top), with speed 500 |
| ShipSprites.Laser.Update | scripts/objects/ship.py:55-59 | the laser moves up by speed * dt and asks to be killed iff its bottom is <= 0 afterwards |
| ShipSprites.ShownFrame | scripts/objects/ship.py:78 | the shown frame int(frame_index) % n always indexes the frame list |
| ShipSprites.FrameAdvancesByAtMostOne | scripts/objects/ship.py:77-78 | with a step of at most one frame, the next shown frame is the same one or the next one, wrapping to 0 |
| ShipSprites.UnitStepsShowEveryFrame | scripts/objects/ship.py:77-80 | at frame indices 0, 1, 2, ... the k-th update shows frame k, and the kill test holds only at the last frame |
| ShipSprites.LastFrameCanBeSkipped | scripts/objects/ship.py:77-80 | with 21 frames, a step from index 18 to 21 shows frame 0, so the kill test does not hold and the explosion goes on |
| ShipSprites.SteadyStepNeverFinishes | scripts/objects/ship.py:76-80 | at a steady 1.5 frames per update from index 0, an explosion of 21 frames never shows its last frame, so the kill test never holds |
| ShipSprites.Explosion.constructor | scripts/objects/ship.py:69-74 | a new explosion shows its first frame centred on the given point, with frame speed 50 and frame index 0 |
| ShipSprites.Explosion.Update | scripts/objects/ship.py:76-80 | frame_index grows by frames_speed * dt; the image is the shown frame; the explosion asks to be killed iff the shown frame is the last one |
| MeteorSprite.SpinAwayFromZero | scripts/objects/meteor.py:15 | the rotation speed the coin and spin draws give lies in [-100, -50] or [50, 100], never in (-50, 50) |
| MeteorSprite.FallsBySpeed | scripts/objects/meteor.py:18-19 | with the direction (u, 1) left unnormalised, the centre moves down by exactly speed * dt and sideways by u * speed * dt |
| MeteorSprite.Meteor.constructor | scripts/objects/meteor.py:10-15 | a new meteor has its mid-bottom at (x, 0) with x in [0, WIDTH], speed in [50, 300], direction (u, 1) with u in [-0.5, 0.5], rotation 0, the spin drawn, and the creation tick |
| MeteorSprite.Meteor.Update | scripts/objects/meteor.py:17-24 | direction is unchanged; the meteor asks to be killed iff the moved top is >= HEIGHT; rotation grows by rotation_speed * dt; the image is the rotated original; the rectangle is rebuilt around the moved centre, which went down by speed * direction.y * dt |
| StarSprite.Stars.constructor | scripts/objects/stars.py:5-9 | a star shows the image passed in, centred on an integer point of [0, WIDTH] x [0, HEIGHT] |
| StarSprite.Stars.Update | scripts/objects/stars.py:11-12 | update changes nothing, for any delta time |
| AssetStore.GridIndex | scripts/basics/assets.py:35-38 | cell (row y, column x) is the (y * cols + x)-th rectangle of the row-major order, at (x * w, y * h) |
| AssetStore.GridInsideSheet | scripts/basics/assets.py:38 | every cell of a rows-by-cols grid lies inside a sheet of cols * w by rows * h |
| AssetStore.ExplosionSheet | scripts/basics/assets.py:20 | the explosion call takes 21 frames from the 5-by-5 grid of 50-by-50 cells, all inside any sheet of at least 250 by 250 |
| AssetStore.Assets.constructor | scripts/basics/assets.py:15-20 | the four images are kept, and the explosion frames are the first 21 cells of the 5-by-5 grid of 50-by-50 cells in row-major order |
| AssetStore.Assets.Groups | scripts/basics/assets.py:27-30 | groups() replaces all three groups with empty ones |
| AssetStore.Assets.AnimatedSprites | scripts/basics/assets.py:32-40 | the slicer succeeds iff every cell it takes lies inside the sheet; it returns exactly min(frames, rows * cols) rectangles, the k-th being cell k in row-major order; otherwise it reports a cell, among those it takes, that lies outside the sheet |
| Shooter.Spawns | canvas/space_shooter.py:66-71 | the number of events of the current meteor type in a queue is the number of queue positions holding one; it is zero iff no event of the queue has that type |
| Shooter.SpawnsAppend | canvas/space_shooter.py:66-71 | two queues one after the other spawn as many meteors as the two queues separately |
| Shooter.First | canvas/space_shooter.py:58 | the first sprite of a group in pygame's order is its least id |
| Shooter.HitBy | scripts/objects/ship.py:61 | the meteors a laser hits are exactly the live meteors it overlaps |
| Shooter.Groupcollide | scripts/objects/ship.py:61 | groupcollide kills only lasers and meteors of the two groups it was given |
| Shooter.GroupcollideLeavesNoPair | scripts/objects/ship.py:61 | after groupcollide no surviving laser overlaps a surviving meteor |
| Shooter.GroupcollideKillsOnlyStruckLasers | scripts/objects/ship.py:61 | every laser groupcollide kills overlapped some meteor |
| Shooter.GroupcollideKillsOnlyStruckMeteors | scripts/objects/ship.py:61 | every meteor groupcollide kills overlapped a laser that groupcollide also kills |
| Shooter.GroupcollideCrashes | scripts/objects/ship.py:61 | groupcollide reports a collision iff some laser overlaps some meteor |
| Shooter.FirstLaserTakesTheMeteor | scripts/objects/ship.py:61 | two lasers over one meteor: only the earlier laser dies with it |
| Shooter.SpansSize | canvas/space_shooter.py:33-35 | a registry holding exactly the ids lo..hi-1 holds hi - lo sprites, so a reset registers 21 |
| Shooter.PosesOf | canvas/space_shooter.py:58 | the pose map has exactly the registered ids, each with the pose its sprite has |
| Shooter.ProgressStep | canvas/space_shooter.py:58 | updating one more pending sprite of the starting all_sprites by one `OneStep` advances the pass, with that sprite no longer pending; a sprite of the starting group stays in all_sprites unless it was updated and died, or it is a meteor or a laser and the score rose |
| Shooter.UpdatedAtEnd | canvas/space_shooter.py:58 | a pass with nothing pending is `Updated`: the score rose by at most the number of lasers of the starting group, and a sprite of the starting group that did not die is still in all_sprites unless it is a meteor or a laser and the score rose |
| Shooter.PairsIn | scripts/objects/ship.py:61 | a pair is in it iff its laser and meteor are in the two groups and their rectangles overlap |
| Shooter.PairsByPoses | scripts/objects/ship.py:61 | while the poses track the sprites, the overlapping pairs found on the sprites are those found on the poses |
| Shooter.PairsByAdded | scripts/objects/ship.py:61-62 | registering a sprite outside the two groups changes no overlapping pair |
| Shooter.InPlaceStep | canvas/space_shooter.py:58 | a star, meteor or explosion that takes its `Next` pose and then leaves the groups iff `DiesFrom` holds makes one `OneStep` |
| Shooter.ShipStep | scripts/objects/ship.py:38-45 | the ship's update that adds nothing, or adds one laser under the next id to all_sprites and laser_sprites, makes one `OneStep` |
| Shooter.StruckStep | scripts/objects/ship.py:55-61 | a laser that moved, followed by groupcollide over the overlapping pairs that are left, is `LaserStruck`; `crashed` then holds iff some pair overlapped |
| Shooter.LaserStep | scripts/objects/ship.py:55-64 | a struck laser followed by one explosion and one point exactly when it crashed makes one `OneStep`, with the `LaserOutcome` |
| Shooter.LaserOutcomeStep | scripts/objects/ship.py:55-64 | a struck laser followed by one explosion and one point exactly when it crashed has the `LaserOutcome`: the pairs, the kills, the explosion and the point |
| Shooter.LaserSurvivors | scripts/objects/ship.py:55-62 | after a laser's update a sprite is gone from all_sprites only if it is that laser and it flew off the top, or it is a meteor or a laser and the score rose |
| Shooter.OwnsGrown | scripts/objects/ship.py:40 | registering a new sprite whose object is not a sprite yet keeps every sprite object mapped back to its own id |
| Shooter.TracksGrown | scripts/objects/ship.py:40 | registering a new sprite together with its pose keeps the poses tracked |
| Shooter.GrowsByAdding | scripts/objects/ship.py:40 | registering a sprite under an id above every registered one keeps every old id and its sprite |
| Shooter.KillCoherent | scripts/objects/ship.py:59 | killing sprites other than the ship keeps the registry and the groups coherent |
| Shooter.AddCoherent | scripts/objects/ship.py:40 | registering a sprite other than a ship under the next id, in all_sprites and the group of its kind, keeps the registry and the groups coherent |
| Shooter.PlaceStars | canvas/space_shooter.py:33-34 | the 20 Stars(...) get ids first..first+19, are fresh, are centred on their drawn points, and are exactly all_sprites |
| Shooter.Populate | canvas/space_shooter.py:31-35 | twenty placed stars and then one fresh ship with score 0, ids first..first+20, all of them and nothing else in all_sprites |
| Shooter.SpaceShooter.constructor | canvas/space_shooter.py:12-24 | the first world is valid and running, with ship id 20, 21 registered sprites all in all_sprites, empty meteor and laser groups, and score 0 |
| Shooter.SpaceShooter.NewScreen | canvas/space_shooter.py:26-39 | the groups are fresh; all_sprites is exactly 20 placed stars plus a fresh ship with score 0; the meteor and laser groups are empty; a new meteor event type is taken |
| Shooter.SpaceShooter.KillAll | scripts/objects/ship.py:59 | kill() removes the ids from every group and keeps the world valid |
| Shooter.SpaceShooter.SpawnMeteor | canvas/space_shooter.py:70-71 | a meteor event adds exactly one fresh meteor, with the drawn spawn point, speed and spin, to both all_sprites and meteor_sprites |
| Shooter.SpaceShooter.OneEvent | canvas/space_shooter.py:66-71 | QUIT stops the game; an event of the current meteor type spawns exactly one fresh meteor, in all_sprites and meteor_sprites; every sprite already registered keeps its id; other events change nothing |
| Shooter.SpaceShooter.Events | canvas/space_shooter.py:62-71 | after the queue the game runs iff it ran and no QUIT came; exactly one meteor was added per event of the meteor type, to both groups; every sprite object registered afterwards was registered before or is new |
| Shooter.SpaceShooter.GroupCollide | scripts/objects/ship.py:61 | the lasers and meteors killed are Groupcollide of the two groups and their overlaps, removed from every group; it reports a crash iff a laser was killed |
| Shooter.SpaceShooter.UpdateShip | scripts/objects/ship.py:22-45 | the ship takes its new direction, rectangle and gun state as in Ship.Update (`Stepped`, `Fire`); a fired laser is fresh, starts at the moved ship's mid-top, and joins all_sprites and laser_sprites under the next id; with no shot the registry and the groups are unchanged; either way one `OneStep` |
| Shooter.SpaceShooter.AddLaser | scripts/objects/ship.py:40 | one fresh laser with its mid-bottom at the given point joins all_sprites and laser_sprites under the next id, with its pose; nothing else changes (`LaserAdded`) |
| Shooter.SpaceShooter.Enlist | scripts/objects/ship.py:40 | a sprite whose object is not a sprite yet is registered under the next id with its pose; the id counter rises by one and the ids and poses stay owned and tracked |
| Shooter.SpaceShooter.Dismiss | scripts/objects/meteor.py:21 | kill() on a sprite other than the ship when it died: exactly that id leaves all three groups, and otherwise nothing changes |
| Shooter.SpaceShooter.RegisterLaser | scripts/objects/ship.py:40 | a laser not yet registered joins all_sprites and laser_sprites under the next id, with its pose, keeping the invariant; nothing else changes |
| Shooter.SpaceShooter.AddExplosion | scripts/objects/ship.py:62 | one fresh explosion, showing the loaded frames from index 0 and centred on the given point, joins all_sprites under the next id with its pose; nothing else changes |
| Shooter.SpaceShooter.RegisterExplosion | scripts/objects/ship.py:62 | an explosion not yet registered joins all_sprites under the next id, with its pose, keeping the invariant; nothing else changes |
| Shooter.SpaceShooter.Retracked | scripts/objects/ship.py:56 | when only one sprite's object changed, and no other sprite shares it, recording that sprite's new pose keeps the poses tracked |
| Shooter.SpaceShooter.MoveLaser | scripts/objects/ship.py:55-59 | the laser takes the pose `Next` gives it (up by speed * dt) and leaves every group iff its moved bottom is <= 0; nothing else changes (`LaserMoved`) |
| Shooter.SpaceShooter.LaserStrike | scripts/objects/ship.py:55-61 | after the move, `pairs` are exactly the overlapping (laser, meteor) pairs of the groups that are left; the killed sprites are Groupcollide of them and leave every group; `crashed` holds iff some pair overlapped, iff a laser was killed (`LaserStruck`); the point returned is this laser's mid-top after the move |
| Shooter.SpaceShooter.Explode | scripts/objects/ship.py:62-64 | one fresh explosion centred on the point joins all_sprites under the next id and the score rises by exactly one (`ExplosionAdded`); the ship's position and gun are unchanged |
| Shooter.SpaceShooter.UpdateLaser | scripts/objects/ship.py:55-64 | one `OneStep`, and `LaserOutcome`: the move and groupcollide as in LaserStrike; exactly when `crashed` (some pair overlapped), one fresh explosion centred on the laser's mid-top joins all_sprites under the next id and the score rises by one; otherwise the registry and the score are unchanged |
| Shooter.SpaceShooter.UpdateMeteor | scripts/objects/meteor.py:17-24 | the meteor's rectangle, angle and image become `After` of the old ones; it leaves all_sprites and meteor_sprites iff its moved top is >= HEIGHT; nothing else changes (one `OneStep`) |
| Shooter.SpaceShooter.FallMeteor | scripts/objects/meteor.py:17-24 | the meteor takes the pose `After` gives it and nothing else changes; the result holds iff the moved top is >= HEIGHT |
| Shooter.SpaceShooter.UpdateExplosion | scripts/objects/ship.py:76-80 | the frame index grows by frames_speed * dt and the image is the shown frame (`After`); the explosion leaves all_sprites iff the shown frame is the last one; nothing else changes (one `OneStep`) |
| Shooter.SpaceShooter.Animate | scripts/objects/ship.py:76-78 | the explosion takes the frame index and image `After` gives it and nothing else changes; the result holds iff the shown frame is the last one |
| Shooter.SpaceShooter.UpdateStar | scripts/objects/stars.py:11-12 | a star's update changes nothing and is one `OneStep` |
| Shooter.SpaceShooter.UpdateOne | canvas/space_shooter.py:58 | one sprite's update, by its kind, is one `OneStep`: its pose becomes `Next` of its pose, no other pose changes, it is out of all_sprites if `DiesFrom` holds, ids are only added, and only a laser raises the score, by at most one; the ship moves as `Stepped` says, and any other sprite leaves the ship as it was |
| Shooter.SpaceShooter.Retrack | canvas/space_shooter.py:58 | the tracked poses become the poses the sprites have; nothing else changes |
| Shooter.SpaceShooter.UpdatePending | canvas/space_shooter.py:58 | updating the first pending sprite advances the pass by one stage; the ship is `Stepped` if it was the ship, and unchanged otherwise |
| Shooter.SpaceShooter.UpdateSprites | canvas/space_shooter.py:58 | `Updated` from the world before the call: every sprite of the starting all_sprites took its `Next` pose once and is out of every group if `DiesFrom` held; otherwise it is still in all_sprites, unless it is a meteor or a laser and the score rose; sprites are only added, under new ids, and only those join all_sprites; the score rose by at most the number of lasers; the ship moved as `Stepped` says |
| Shooter.SpaceShooter.UpdateEach | canvas/space_shooter.py:58 | the loop over a snapshot of all_sprites in ascending id order, each id once: `Updated` from the tracked start (the sprites that stay included), with the ship `Stepped` |
| Shooter.SpaceShooter.ShipCollisions | canvas/space_shooter.py:59-60 | `hits`, exactly the meteors overlapping the ship, leave all_sprites and meteor_sprites and nothing else changes (`MeteorsLose`); the ship never leaves; the damage cue plays iff `hits` is non-empty; none overlaps afterwards |
| Shooter.SpaceShooter.Update | canvas/space_shooter.py:54-60 | the sprite pass goes from the starting world to `mid` and is `Updated`, and the ship is `Stepped`; `alive` is exactly the meteors of `mid`'s all_sprites; then `hits`, exactly the meteors of `alive` that overlap the ship, leave all_sprites and meteor_sprites and nothing else changes (`MeteorsLose`); the damage cue plays iff `hits` is non-empty; no meteor overlaps the ship afterwards; the score never drops |
| Shooter.SpaceShooter.Inputs | canvas/space_shooter.py:84-94 | K_0 sets 720x480 with vsync 0 and resets, then K_1 sets 1280x720 with vsync 0 and resets; both apply in that order; a reset leaves 21 sprites, a fresh ship with score 0 and empty typed groups; with neither key nothing changes |
| Shooter.SpaceShooter.UpdateThenDraw | canvas/space_shooter.py:48-50 | update() then draw(): the score draw() writes is the ship's score after the update, never below the score before it; the ship stays the same object and running is unchanged |
| Shooter.SpaceShooter.Run | canvas/space_shooter.py:41-52 | events, update, draw, inputs in that order: the score drawn is never below the score at the start; after a reset the ship is new with score 0; otherwise the drawn score is the current one |
| Gui.ClickStep | scripts/basics/gui.py:195-235 | a click is reported iff the button is visible, hovered, released and was pressed; invisible means unchanged; outside means unpressed, centred on pos, default colours; hovering means hover colours; held means pressed and shifted by the shadow; a click leaves it at pos |
| Gui.NoClickTwiceInARow | scripts/basics/gui.py:219-225 | a click clears `pressed`, so the next call cannot click |
| Gui.ClicksNeedPresses | scripts/basics/gui.py:195-235 | over any sequence of calls there are no more clicks than presses held over the button, plus one for a press in progress |
| Gui.PressThenReleaseClicksOnce | scripts/basics/gui.py:214-225 | holding over a visible button and then releasing over it clicks exactly once |
| Gui.Button.constructor | scripts/basics/gui.py:139-176 | the button's rectangle is its size centred on pos, in the default colours, not pressed |
| Gui.Button.Click | scripts/basics/gui.py:195-235 | the new rectangle, colours and `pressed`, and the result, are ClickStep of the old ones |
| Gui.PointerOnTrack | scripts/basics/gui.py:263 | with multiplier 1 and a value in [0, 100], the pointer lies in [padding, width - padding] |
| Gui.ValueInRange | scripts/basics/gui.py:297-299 | with multiplier 1, any point of the track reads as a value in [0, 100] |
| Gui.Slider.constructor | scripts/basics/gui.py:238-263 | the pointer is placed for the initial value by the int(... / multiplier) + padding formula; with multiplier 1 it lies on the track |
| Gui.Slider.ClickSlider | scripts/basics/gui.py:280-304 | the slider changes, and reports True, iff the mouse is on the track with the left button held; the value is round(pointer * 100 / track width * multiplier); the pointer is then re-derived from it by the constructor's formula; with multiplier 1 the pointer stays on the track and the value in [0, 100] |
| Gui.Edited | scripts/basics/gui.py:418-428 | Backspace drops exactly the last character and leaves empty text empty; Return and non-key events change nothing; any other key gives the text followed by exactly its unicode |
| Gui.BackspaceUndoesTyping | scripts/basics/gui.py:421-428 | typing one character and then Backspace gives back the text |
| Gui.Overflow | scripts/basics/gui.py:364-367 | the offset is max(0, text width - box width): never negative, zero iff the text fits, and otherwise exactly the overflow |
| Gui.BarBlinks | scripts/basics/gui.py:379-384 | the bar shows throughout the first second of focus and then for 1000 ms out of every 2000 |
| Gui.TextBox.constructor | scripts/basics/gui.py:307-346 | a new box is empty, unfocused, with offset 0 and no blink start |
| Gui.TextBox.Click | scripts/basics/gui.py:388-406 | a left press inside focuses the box, a left press elsewhere unfocuses it, and otherwise (or while invisible) focus is unchanged |
| Gui.TextBox.Event | scripts/basics/gui.py:408-428 | only a focused box changes its text, and by Edited |
| Gui.TextBox.Draw | scripts/basics/gui.py:352-386 | a visible box sets the offset to the previous text's overflow; unfocused it restarts the blink clock at now; focused it shows the bar iff BarVisible of the time since, or raises when the clock was never set; an invisible box changes nothing |

## Left out

- Rendering is not modelled: draw, write, blit, fonts, scale-to-fit, rotozoom's pixels, the
  score label and the canvas scaling. The score draw() writes is the one value kept (`Run`).
- Audio is not modelled: the laser, explosion and damage cues and the music. Where a cue
  plays is stated as a condition (`ShipCollisions` returns it).
- Pixel-mask collision is not modelled. `collide_mask` is two fixed predicates on the two
  rectangles, and the rotozoom size is a fixed function of the angle.
- Randomness and the clock are parameters: randint/uniform draws, with their ranges as
  preconditions, and get_ticks.
- Inputs: resize_screen (scripts/basics/screen.py:80-81) quits the mixer, and new_screen then
  plays the music again. Audio is left out, so whether that play call fails is not modelled.
- Ship.Update: the two get_ticks() reads of one update are taken as one tick.
- The pygame event timer is not modelled. set_timer's 500 ms delivery is outside the model,
  and events arrive as a queue. custom_type() hands out a new type per reset, so events of
  an earlier timer no longer spawn.
- ShipSprites.Normalized: the diagonal factor 1/sqrt(2) is a parameter `diag` with
  diag > 0 and diag * diag == 1/2, since an exact square root is not a real literal.
- Shooter.PlaceStars: adds the twenty star ids to all_sprites after creating them, not one at
  a time. The final state is the same and nothing is observed in between.
- UpdateSprites: for the sprites created during the pass (lasers the ship fires, explosions
  left by lasers) it states only that they carry new ids. The sprites themselves are stated per
  update by UpdateShip and UpdateLaser, not collected over the whole pass.
- UpdateSprites: for the score it states only the bound of one point per laser. The exact rule
  (one point iff that laser's groupcollide killed something) is stated per laser by UpdateLaser.
- UpdateSprites: a meteor or a laser of the starting all_sprites that did not die by its own
  update may be missing afterwards whenever the score rose. Which sprites each laser's
  groupcollide killed is stated per laser by UpdateLaser (`LaserOutcome`) and not gathered
  over the pass. Stars, explosions and the ship that did not die are stated to stay. The typed
  groups follow from all_sprites through the invariant.
- UpdateEach: has the same gaps as UpdateSprites, which it implements.
- Update: inherits the gaps of UpdateSprites for its sprite pass (`mid`).
- Explode: raises the score before registering the explosion. Laser.update does these the
  other way round. Nothing reads the score or the registry in between, so the final state is
  the same.
- Shooter.SpaceShooter: killed sprites stay in the id registry, as pygame sprites survive
  kill() while referred to; only the groups forget them.
- AssetStore.Assets.constructor: requires the explosion sheet to be at least 250 by 250.
  A smaller sheet makes Surface.subsurface raise while loading, which is fatal.
  AnimatedSprites models that error path.
- Gui.Slider.constructor: requires a non-zero multiplier; the source divides by it and would
  raise ZeroDivisionError.
- Gui.Button.Click takes the hover test as a boolean input. The same holds for TextBox.Click,
  which takes its inside test as one.
  - The source tests `collidepoint` on a rectangle built from the initial position, scaled by
    the window's float aspect ratio.
  - Slider.ClickSlider gets that scaled track rectangle itself.
- Gui.TextBox.Draw takes the width of the newly rendered text as an input, because it comes
  from font rendering. The source's unset `start_blink` is reported as `BlinkUnset`.
- Gui: the drawing-only fields are not modelled. These are button_x/button_y, shadow_rect,
  borders, transparency, the password mask, the placeholder label and blink_time as a field.
  Panel and its update (float physics, unused by the game) are not modelled either.
- settings.py, screen.py, main.py and menu.py are not part of this model. They cover JSON
  settings, the display wrapper, the driver loop and the menu layout. Only the video settings
  that resize_screen writes are kept (`Inputs`).
