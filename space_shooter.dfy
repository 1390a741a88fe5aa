/** The shooter screen (canvas/space_shooter.py): the world of sprites, one frame of
    events, update, draw and inputs, and the reset that rebuilds it.

    Every sprite gets a fresh id when it is created and is registered, under that id, in
    `sprites` and in the groups its constructor names (AssetStore.Assets holds the groups as
    sets of ids). Sprites join their groups only when they are created, and ids grow with
    creation, so visiting the ids of a group in ascending order is visiting the group in
    pygame's (insertion) order. Killing a sprite removes its id from every group; `sprites`
    keeps it, as a killed pygame sprite still exists while something refers to it. */
module Shooter {
  import opened Geometry
  import opened ShipSprites
  import opened MeteorSprite
  import opened StarSprite
  import opened AssetStore

  /** The random draws made by one Meteor(...) call. */
  datatype MeteorDraw = MeteorDraw(x: int, speed: int, drift: real, coin: int, spin: int)

  predicate ValidDraw(d: MeteorDraw) {
    0 <= d.x <= WIDTH && 50 <= d.speed <= 300 && -0.5 <= d.drift <= 0.5 && SpinDraw(d.coin, d.spin)
  }

  /** The 20 star centres drawn by one new_screen. */
  predicate StarDraws(ps: seq<(int, int)>) {
    |ps| == 20 && forall i :: 0 <= i < |ps| ==> 0 <= ps[i].0 <= WIDTH && 0 <= ps[i].1 <= HEIGHT
  }

  /** An event from the queue: the window's close request, a custom event of a given type
      (carrying the draws a meteor spawn would make), or anything else. */
  datatype Event = Quit | Custom(kind: nat, draw: MeteorDraw) | Other

  predicate ValidEvents(events: seq<Event>) {
    forall i :: 0 <= i < |events| ==> events[i].Custom? ==> ValidDraw(events[i].draw)
  }

  /** Whether one event is of the given custom type. */
  function SpawnsOn(e: Event, kind: nat): nat {
    if e.Custom? && e.kind == kind then 1 else 0
  }

  /** The positions in the queue of the events of the given custom type. */
  function SpawnAt(events: seq<Event>, kind: nat): set<int> {
    set i | 0 <= i < |events| && SpawnsOn(events[i], kind) == 1
  }

  /** How many events of the queue are of the given custom type: one per position that
      holds one. */
  function Spawns(events: seq<Event>, kind: nat): (n: nat)
    ensures n == |SpawnAt(events, kind)|
    ensures n == 0 <==> forall i :: 0 <= i < |events| ==> SpawnsOn(events[i], kind) == 0
  {
    if events == [] then 0
    else
      var last := |events| - 1;
      assert SpawnAt(events, kind)
          == SpawnAt(events[..last], kind) + (if SpawnsOn(events[last], kind) == 1 then {last} else {});
      Spawns(events[..last], kind) + SpawnsOn(events[last], kind)
  }

  /** The events of two queues spawn as many meteors as the two queues one after the other. */
  lemma {:induction false} SpawnsAppend(a: seq<Event>, b: seq<Event>, kind: nat)
    ensures Spawns(a + b, kind) == Spawns(a, kind) + Spawns(b, kind)
    decreases |b|
  {
    if b == [] {
      assert a + b == a;
    } else {
      var c := b[..|b| - 1];
      assert (a + b)[..|a + b| - 1] == a + c;
      SpawnsAppend(a, c, kind);
    }
  }

  /** One more event of the queue adds its own spawn to the count, and is a QUIT or not. */
  lemma PrefixStep(events: seq<Event>, i: nat, kind: nat)
    requires i < |events|
    ensures Spawns(events[..i + 1], kind) == Spawns(events[..i], kind) + SpawnsOn(events[i], kind)
    ensures Quit in events[..i + 1] <==> Quit in events[..i] || events[i] == Quit
  {
    assert events[..i + 1] == events[..i] + [events[i]];
    assert events[..i + 1][..i] == events[..i];
  }

  /** Everything one call of run() consumes: the event queue, the delta time and the tick, the
      keys held, the keys just pressed, and the star draws of the resets K_0 and K_1 trigger. */
  datatype Frame = Frame(events: seq<Event>, dt: real, now: int, keys: Keys,
                         shootJustPressed: bool, k0JustPressed: bool, k1JustPressed: bool,
                         starsAfterK0: seq<(int, int)>, starsAfterK1: seq<(int, int)>)

  predicate ValidFrame(f: Frame) {
    ValidEvents(f.events)
    && (f.k0JustPressed ==> StarDraws(f.starsAfterK0))
    && (f.k1JustPressed ==> StarDraws(f.starsAfterK1))
  }

  /** m is the least id of s, the one created first. */
  predicate IsLeast(m: nat, s: set<nat>) {
    m in s && forall j :: j in s ==> m <= j
  }

  /** A non-empty finite set of ids has a least element. */
  lemma {:induction false} MinExists(s: set<nat>)
    requires s != {}
    ensures exists m :: IsLeast(m, s)
    decreases |s|
  {
    var x :| x in s;
    if s == {x} {
      assert IsLeast(x, s);
    } else {
      var rest := s - {x};
      MinExists(rest);
      var m :| IsLeast(m, rest);
      var least := if x < m then x else m;
      forall j | j in s ensures least <= j {
        if j != x {
          assert j in rest;
        }
      }
      assert IsLeast(least, s);
    }
  }

  /** The first sprite of a group in pygame's iteration order. */
  function First(s: set<nat>): (m: nat)
    requires s != {}
    ensures IsLeast(m, s)
  {
    MinExists(s);
    var m :| IsLeast(m, s); m
  }

  /** The meteors of ms that laser l collides with. */
  function HitBy(l: nat, ms: set<nat>, pairs: set<(nat, nat)>): (hit: set<nat>)
    ensures forall m :: m in hit <==> m in ms && (l, m) in pairs
  {
    set m | m in ms && (l, m) in pairs
  }

  /** The lasers and meteors a groupcollide kills. */
  datatype Collision = Collision(lasers: set<nat>, meteors: set<nat>)

  /** pygame.sprite.groupcollide(lasers, meteors, True, True, collided), where `pairs` holds
      the (laser, meteor) pairs that collide: the lasers are taken in order; each kills every
      meteor still alive that it collides with, and dies if there was one. */
  function Groupcollide(lasers: set<nat>, meteors: set<nat>, pairs: set<(nat, nat)>): (c: Collision)
    ensures c.lasers <= lasers && c.meteors <= meteors
    decreases |lasers|
  {
    if lasers == {} then Collision({}, {})
    else
      var l := First(lasers);
      var hit := HitBy(l, meteors, pairs);
      var rest := Groupcollide(lasers - {l}, meteors - hit, pairs);
      Collision(if hit == {} then rest.lasers else {l} + rest.lasers, hit + rest.meteors)
  }

  /** Laser l collides with one of the meteors ms. */
  predicate Struck(l: nat, ms: set<nat>, pairs: set<(nat, nat)>) {
    exists m :: m in ms && (l, m) in pairs
  }

  /** Meteor m collides with one of the lasers ls. */
  predicate StruckBy(m: nat, ls: set<nat>, pairs: set<(nat, nat)>) {
    exists l :: l in ls && (l, m) in pairs
  }

  /** After a groupcollide no surviving laser collides with a surviving meteor. */
  lemma {:induction false} GroupcollideLeavesNoPair(lasers: set<nat>, meteors: set<nat>, pairs: set<(nat, nat)>)
    ensures var c := Groupcollide(lasers, meteors, pairs);
            forall l, m :: l in lasers - c.lasers && m in meteors - c.meteors ==> (l, m) !in pairs
    decreases |lasers|
  {
    if lasers != {} {
      var l0 := First(lasers);
      var hit := HitBy(l0, meteors, pairs);
      GroupcollideLeavesNoPair(lasers - {l0}, meteors - hit, pairs);
      var c := Groupcollide(lasers, meteors, pairs);
      var rest := Groupcollide(lasers - {l0}, meteors - hit, pairs);
      forall l, m | l in lasers - c.lasers && m in meteors - c.meteors ensures (l, m) !in pairs {
        if l == l0 {
          assert hit == {} && m !in hit;
        } else {
          assert l in (lasers - {l0}) - rest.lasers && m in (meteors - hit) - rest.meteors;
        }
      }
    }
  }

  /** Every laser a groupcollide kills collided with a meteor. */
  lemma {:induction false} GroupcollideKillsOnlyStruckLasers(lasers: set<nat>, meteors: set<nat>, pairs: set<(nat, nat)>)
    ensures forall l :: l in Groupcollide(lasers, meteors, pairs).lasers ==> Struck(l, meteors, pairs)
    decreases |lasers|
  {
    if lasers != {} {
      var l0 := First(lasers);
      var hit := HitBy(l0, meteors, pairs);
      GroupcollideKillsOnlyStruckLasers(lasers - {l0}, meteors - hit, pairs);
      var rest := Groupcollide(lasers - {l0}, meteors - hit, pairs);
      forall l | l in Groupcollide(lasers, meteors, pairs).lasers ensures Struck(l, meteors, pairs) {
        if l == l0 {
          var m :| m in hit;
          assert m in meteors && (l, m) in pairs;
        } else {
          assert l in rest.lasers && Struck(l, meteors - hit, pairs);
          var m :| m in meteors - hit && (l, m) in pairs;
          assert m in meteors;
        }
      }
    }
  }

  /** Every meteor a groupcollide kills collided with a laser it kills. */
  lemma {:induction false} GroupcollideKillsOnlyStruckMeteors(lasers: set<nat>, meteors: set<nat>, pairs: set<(nat, nat)>)
    ensures forall m :: m in Groupcollide(lasers, meteors, pairs).meteors ==>
              StruckBy(m, Groupcollide(lasers, meteors, pairs).lasers, pairs)
    decreases |lasers|
  {
    if lasers != {} {
      var l0 := First(lasers);
      var hit := HitBy(l0, meteors, pairs);
      GroupcollideKillsOnlyStruckMeteors(lasers - {l0}, meteors - hit, pairs);
      var c := Groupcollide(lasers, meteors, pairs);
      var rest := Groupcollide(lasers - {l0}, meteors - hit, pairs);
      forall m | m in c.meteors ensures StruckBy(m, c.lasers, pairs) {
        if m in hit {
          assert l0 in c.lasers && (l0, m) in pairs;
        } else {
          assert m in rest.meteors && StruckBy(m, rest.lasers, pairs);
          var l :| l in rest.lasers && (l, m) in pairs;
          assert l in c.lasers;
        }
      }
    }
  }

  /** A groupcollide kills something iff some laser collides with some meteor. */
  lemma GroupcollideCrashes(lasers: set<nat>, meteors: set<nat>, pairs: set<(nat, nat)>)
    ensures Groupcollide(lasers, meteors, pairs).lasers != {}
            <==> exists l, m :: l in lasers && m in meteors && (l, m) in pairs
  {
    var c := Groupcollide(lasers, meteors, pairs);
    GroupcollideLeavesNoPair(lasers, meteors, pairs);
    GroupcollideKillsOnlyStruckLasers(lasers, meteors, pairs);
    GroupcollideKillsOnlyStruckMeteors(lasers, meteors, pairs);
    if c.lasers != {} {
      var l :| l in c.lasers;
      assert Struck(l, meteors, pairs);
      var m :| m in meteors && (l, m) in pairs;
      assert l in lasers;
    } else {
      assert c.meteors == {};
    }
  }

  /** Two lasers over one meteor: only the first one (in creation order) dies. */
  lemma FirstLaserTakesTheMeteor()
    ensures Groupcollide({3, 5}, {4}, {(3, 4), (5, 4)}) == Collision({3}, {4})
  {
    var pairs := {(3, 4), (5, 4)};
    assert First({3, 5}) == 3;
    assert HitBy(3, {4}, pairs) == {4};
    assert {3, 5} - {3} == {5};
    assert First({5}) == 5;
    assert HitBy(5, {4} - {4}, pairs) == {};
    assert {5} - {5} == {};
  }

  /** What an id stands for. */
  datatype Sprite =
    | StarSprite(star: Stars)
    | ShipSprite(ship: Ship)
    | MeteorSprite(meteor: Meteor)
    | LaserSprite(laser: Laser)
    | ExplosionSprite(explosion: Explosion)
  {
    function Body(): object {
      match this
      case StarSprite(s) => s
      case ShipSprite(s) => s
      case MeteorSprite(m) => m
      case LaserSprite(l) => l
      case ExplosionSprite(e) => e
    }
  }

  /** The part of a sprite that its own update changes: a meteor's rectangle, angle and
      image, a laser's rectangle, an explosion's frame index and image. Stars never change;
      the ship's step (Ship.Stepped) is stated on its own. */
  datatype Pose =
    | Still
    | MeteorPose(rect: FRect, rotation: real, image: Size)
    | LaserPose(rect: FRect)
    | ExplosionPose(frameIndex: real, shown: Rect)

  /** The meteor, laser or explosion a sprite is, if it is one. */
  function MeteorOf(s: Sprite): set<Meteor> { if s.MeteorSprite? then {s.meteor} else {} }
  function LaserOf(s: Sprite): set<Laser> { if s.LaserSprite? then {s.laser} else {} }
  function ExplosionOf(s: Sprite): set<Explosion> { if s.ExplosionSprite? then {s.explosion} else {} }

  function PoseOf(s: Sprite): Pose
    reads MeteorOf(s)`rect, MeteorOf(s)`rotation, MeteorOf(s)`image, LaserOf(s)`rect,
          ExplosionOf(s)`frameIndex, ExplosionOf(s)`image
  {
    match s
    case MeteorSprite(m) => MeteorPose(m.rect, m.rotation, m.image)
    case LaserSprite(l) => LaserPose(l.rect)
    case ExplosionSprite(e) => ExplosionPose(e.frameIndex, e.image)
    case _ => Still
  }

  /** The pose one call of the sprite's update gives it, from pose p. */
  function Next(s: Sprite, p: Pose, dt: real, rotated: real -> Size): Pose {
    match s
    case MeteorSprite(m) =>
      if p.MeteorPose? then
        var after := m.After(p.rect, p.rotation, dt, rotated);
        MeteorPose(after.0, after.1, after.2)
      else p
    case LaserSprite(l) => if p.LaserPose? then LaserPose(l.MovedUp(p.rect, dt)) else p
    case ExplosionSprite(e) =>
      if p.ExplosionPose? && |e.frames| > 0 then
        var after := e.After(p.frameIndex, dt);
        ExplosionPose(after.0, after.1)
      else p
    case _ => p
  }

  /** The sprite's update from pose p asks for it to be killed: a meteor that falls off the
      bottom, a laser that leaves the top, an explosion that reaches its last frame. */
  predicate DiesFrom(s: Sprite, p: Pose, dt: real) {
    match s
    case MeteorSprite(m) => p.MeteorPose? && m.FallsOff(p.rect, dt)
    case LaserSprite(l) => p.LaserPose? && l.MovedUp(p.rect, dt).Bottom() <= 0.0
    case ExplosionSprite(e) =>
      p.ExplosionPose? && |e.frames| > 0 && ShownFrame(e.After(p.frameIndex, dt).0, |e.frames|) == |e.frames| - 1
    case _ => false
  }

  /** The objects a registry's sprites stand for. */
  function BodiesOf(sprites: map<nat, Sprite>): set<object> {
    set k | k in sprites :: sprites[k].Body()
  }

  /** The meteors, lasers and explosions of a registry. */
  function MeteorsOf(sprites: map<nat, Sprite>): set<Meteor> {
    set k | k in sprites && sprites[k].MeteorSprite? :: sprites[k].meteor
  }
  function LasersOf(sprites: map<nat, Sprite>): set<Laser> {
    set k | k in sprites && sprites[k].LaserSprite? :: sprites[k].laser
  }
  function ExplosionsOf(sprites: map<nat, Sprite>): set<Explosion> {
    set k | k in sprites && sprites[k].ExplosionSprite? :: sprites[k].explosion
  }

  /** The pose every sprite of the registry s has now. */
  function PosesOf(s: map<nat, Sprite>): (p: map<nat, Pose>)
    reads MeteorsOf(s)`rect, MeteorsOf(s)`rotation, MeteorsOf(s)`image, LasersOf(s)`rect,
          ExplosionsOf(s)`frameIndex, ExplosionsOf(s)`image
    ensures p.Keys == s.Keys && forall k :: k in s ==> p[k] == PoseOf(s[k])
  {
    map k | k in s :: PoseOf(s[k])
  }

  /** The kinds of sprite a groupcollide can kill: meteors and lasers. */
  predicate Collidable(s: Sprite) {
    s.MeteorSprite? || s.LaserSprite?
  }

  /** The part of the world that all_sprites.update reads and writes, as a value: the
      registry, the next id, the three groups, the score, and the pose of every sprite. */
  datatype View = View(sprites: map<nat, Sprite>, nextId: nat, all: set<nat>, meteors: set<nat>,
                       lasers: set<nat>, score: int, poses: map<nat, Pose>)

  /** What the update of the sprite with id `id` does to the view v0, whatever its kind: its
      pose becomes Next of its pose; every other registered sprite keeps its pose; when
      DiesFrom says so it is out of all_sprites; sprites are only added, under new ids, and
      only those can join all_sprites; only a laser raises the score, by one at most. A sprite
      of all_sprites leaves it only when it is the one updated and DiesFrom says so, or when
      it is a meteor or a laser and the score rose. A star, meteor or explosion adds nothing
      and leaves the groups as they were, except that it leaves them itself when it dies. */
  predicate OneStep(v0: View, v1: View, id: nat, dt: real, rotated: real -> Size) {
    id in v0.sprites && v0.sprites.Keys == v0.poses.Keys && v1.sprites.Keys == v1.poses.Keys
    && v0.nextId <= v1.nextId && Grows(v0.sprites, v1.sprites, v0.nextId)
    && v1.poses[id] == Next(v0.sprites[id], v0.poses[id], dt, rotated)
    && (forall k :: k in v0.sprites && k != id ==> v1.poses[k] == v0.poses[k])
    && (DiesFrom(v0.sprites[id], v0.poses[id], dt) ==> id !in v1.all)
    && (forall k :: k in v1.all ==> k in v0.all || v0.nextId <= k)
    && v0.score <= v1.score <= v0.score + (if v0.sprites[id].LaserSprite? then 1 else 0)
    && Survivors(v0, v1, id, dt)
    && (var s := v0.sprites[id];
        s.StarSprite? || s.MeteorSprite? || s.ExplosionSprite? ==>
          var gone := if DiesFrom(s, v0.poses[id], dt) then {id} else {};
          v1.sprites == v0.sprites && v1.nextId == v0.nextId && v1.score == v0.score
          && v1.all == v0.all - gone && v1.meteors == v0.meteors - gone && v1.lasers == v0.lasers)
  }

  /** A sprite of v0's all_sprites is missing from v1's only when it is the sprite id and
      DiesFrom says so, or when it is a meteor or a laser and the score rose. */
  predicate Survivors(v0: View, v1: View, id: nat, dt: real) {
    id in v0.sprites && id in v0.poses
    && forall k :: k in v0.all && k !in v1.all ==>
         (k == id && DiesFrom(v0.sprites[id], v0.poses[id], dt))
         || (v0.score < v1.score && k in v0.sprites && Collidable(v0.sprites[k]))
  }

  /** How far all_sprites.update has got from the view v0 at its start to the view v: the ids
      of v0's all_sprites outside `pending` were updated once each, in the sense of OneStep,
      and the pending ones not yet; `seen` holds the lasers among the updated ones. A sprite
      of v0's all_sprites is missing from v's only if it was updated and DiesFrom said so, or
      if it is a meteor or a laser and the score rose. */
  predicate Progress(v0: View, v: View, pending: set<nat>, seen: set<nat>, dt: real, rotated: real -> Size) {
    v0.sprites.Keys == v0.poses.Keys && v.sprites.Keys == v.poses.Keys
    && pending <= v0.all && v0.all <= v0.sprites.Keys
    && (forall k :: k in v0.all && v0.sprites[k].LaserSprite? ==> k in v0.lasers)
    && v0.nextId <= v.nextId && Grows(v0.sprites, v.sprites, v0.nextId)
    && seen <= v0.lasers && seen !! pending
    && v0.score <= v.score <= v0.score + |seen|
    && (forall k :: k in v.all ==> k in v0.all || v0.nextId <= k)
    && (forall k :: k in v0.all && k !in pending ==> v.poses[k] == Next(v0.sprites[k], v0.poses[k], dt, rotated))
    && (forall k :: k in v0.all && k !in pending && DiesFrom(v0.sprites[k], v0.poses[k], dt) ==> k !in v.all)
    && (forall k :: k in v0.all && k !in v.all ==>
          (k !in pending && DiesFrom(v0.sprites[k], v0.poses[k], dt)) || (v0.score < v.score && Collidable(v0.sprites[k])))
    && (forall k :: k in pending ==> v.poses[k] == v0.poses[k])
  }

  /** Updating one more pending sprite moves from one stage of all_sprites.update to the next. */
  lemma ProgressStep(v0: View, v: View, v1: View, pending: set<nat>, seen: set<nat>, id: nat, dt: real, rotated: real -> Size)
    requires Progress(v0, v, pending, seen, dt, rotated) && id in pending
    requires OneStep(v, v1, id, dt, rotated)
    requires forall k :: k in v0.sprites ==> k < v0.nextId
    ensures Progress(v0, v1, pending - {id}, if v0.sprites[id].LaserSprite? then seen + {id} else seen, dt, rotated)
  {
    var seen' := if v0.sprites[id].LaserSprite? then seen + {id} else seen;
    assert |seen'| <= |seen| + (if v0.sprites[id].LaserSprite? then 1 else 0);
  }

  /** all_sprites.update(dt) from the view v0 to the view v1: each sprite of v0's all_sprites
      took the pose Next gives it, and is out of all_sprites if DiesFrom says so; otherwise it
      is still there, unless it is a meteor or a laser and the score rose (some laser's
      groupcollide killed something); sprites are only added, under new ids, and only those
      can join all_sprites; the score rose by at most one per laser of v0. */
  predicate Updated(v0: View, v1: View, dt: real, rotated: real -> Size) {
    v0.sprites.Keys == v0.poses.Keys && v1.sprites.Keys == v1.poses.Keys && v0.all <= v0.sprites.Keys
    && Grows(v0.sprites, v1.sprites, v0.nextId)
    && (forall k {:trigger v1.poses[k]} :: k in v0.all ==> v1.poses[k] == Next(v0.sprites[k], v0.poses[k], dt, rotated))
    && (forall k {:trigger DiesFrom(v0.sprites[k], v0.poses[k], dt)} ::
          k in v0.all && DiesFrom(v0.sprites[k], v0.poses[k], dt) ==> k !in v1.all)
    && (forall k :: k in v0.all && k !in v1.all ==>
          DiesFrom(v0.sprites[k], v0.poses[k], dt) || (v0.score < v1.score && Collidable(v0.sprites[k])))
    && (forall k :: k in v1.all ==> k in v0.all || v0.nextId <= k)
    && v0.score <= v1.score <= v0.score + |v0.lasers|
  }

  /** Once nothing is pending, all_sprites.update is done. */
  lemma UpdatedAtEnd(v0: View, v1: View, seen: set<nat>, dt: real, rotated: real -> Size)
    requires Progress(v0, v1, {}, seen, dt, rotated)
    ensures Updated(v0, v1, dt, rotated)
  {
    SubsetSize(seen, v0.lasers);
  }

  /** The meteors `gone` left all_sprites and meteor_sprites; nothing else changed. */
  ghost predicate MeteorsLose(v1: View, v2: View, gone: set<nat>) {
    v2.sprites == v1.sprites && v2.nextId == v1.nextId && v2.score == v1.score && v2.poses == v1.poses
    && v2.all == v1.all - gone && v2.meteors == v1.meteors - gone && v2.lasers == v1.lasers
  }

  /** The (laser, meteor) pairs among the lasers ls and the meteors ms whose masks overlap,
      by the rectangles the sprites have now. */
  function PairsIn(sprites: map<nat, Sprite>, ls: set<nat>, ms: set<nat>, hit: (FRect, FRect) -> bool): (p: set<(nat, nat)>)
    requires forall l :: l in ls ==> l in sprites && sprites[l].LaserSprite?
    requires forall m :: m in ms ==> m in sprites && sprites[m].MeteorSprite?
    reads LasersOf(sprites)`rect, MeteorsOf(sprites)`rect
    ensures forall l, m :: (l, m) in p <==> l in ls && m in ms && hit(sprites[l].laser.rect, sprites[m].meteor.rect)
  {
    set l, m | l in ls && m in ms && hit(sprites[l].laser.rect, sprites[m].meteor.rect) :: (l, m)
  }

  /** pairs holds exactly the (laser, meteor) pairs, among the lasers ls and the meteors ms,
      whose rectangles in the poses p satisfy hit. */
  ghost predicate PairsBy(pairs: set<(nat, nat)>, p: map<nat, Pose>, ls: set<nat>, ms: set<nat>, hit: (FRect, FRect) -> bool) {
    (forall l :: l in ls ==> l in p && p[l].LaserPose?)
    && (forall m :: m in ms ==> m in p && p[m].MeteorPose?)
    && (forall l, m :: (l, m) in pairs <==> l in ls && m in ms && hit(p[l].rect, p[m].rect))
  }

  /** While the poses track the sprites, the pairs found on the sprites' rectangles are the
      pairs found on their poses. */
  lemma PairsByPoses(s: map<nat, Sprite>, p: map<nat, Pose>, ls: set<nat>, ms: set<nat>, hit: (FRect, FRect) -> bool)
    requires TracksPoses(s, p)
    requires forall l :: l in ls ==> l in s && s[l].LaserSprite?
    requires forall m :: m in ms ==> m in s && s[m].MeteorSprite?
    ensures PairsBy(PairsIn(s, ls, ms, hit), p, ls, ms, hit)
  {
  }

  /** Registering the pose of a sprite outside ls and ms changes no pair. */
  lemma PairsByAdded(pairs: set<(nat, nat)>, p: map<nat, Pose>, ls: set<nat>, ms: set<nat>, hit: (FRect, FRect) -> bool, n: nat, q: Pose)
    requires PairsBy(pairs, p, ls, ms, hit) && n !in ls && n !in ms
    ensures PairsBy(pairs, p[n := q], ls, ms, hit)
  {
  }

  /** The sprite id took the pose Next gives it, and nothing else changed. */
  ghost predicate Posed(v0: View, v1: View, id: nat, dt: real, rotated: real -> Size) {
    id in v0.sprites && id in v0.poses
    && v1.sprites == v0.sprites && v1.nextId == v0.nextId && v1.score == v0.score
    && v1.all == v0.all && v1.meteors == v0.meteors && v1.lasers == v0.lasers
    && v1.poses == v0.poses[id := Next(v0.sprites[id], v0.poses[id], dt, rotated)]
  }

  /** A star, meteor or explosion whose pose becomes Next of its pose, and which then leaves
      the groups when DiesFrom says so, while nothing else changes, makes one OneStep. */
  lemma InPlaceStep(v0: View, v1: View, v2: View, id: nat, dies: bool, dt: real, rotated: real -> Size)
    requires v0.sprites.Keys == v0.poses.Keys && id !in v0.lasers
    requires Posed(v0, v1, id, dt, rotated)
    requires v0.sprites[id].StarSprite? || v0.sprites[id].MeteorSprite? || v0.sprites[id].ExplosionSprite?
    requires dies == DiesFrom(v0.sprites[id], v0.poses[id], dt)
    requires v2.sprites == v1.sprites && v2.nextId == v1.nextId && v2.score == v1.score && v2.poses == v1.poses
    requires var gone := if dies then {id} else {};
             v2.all == v1.all - gone && v2.meteors == v1.meteors - gone && v2.lasers == v1.lasers - gone
    ensures OneStep(v0, v2, id, dt, rotated)
  {
  }

  /** The ship's update keeps its pose (it has none) and either adds nothing or adds one laser
      under the next id, to all_sprites and laser_sprites: one OneStep either way. */
  lemma ShipStep(v0: View, v1: View, id: nat, fired: bool, dt: real, rotated: real -> Size)
    requires id in v0.sprites && v0.sprites[id].ShipSprite? && v0.sprites.Keys == v0.poses.Keys
    requires forall k :: k in v0.sprites ==> k < v0.nextId
    requires !fired ==> v1 == v0
    requires fired ==> LaserAdded(v0, v1)
    ensures OneStep(v0, v1, id, dt, rotated)
  {
  }

  /** A laser was registered under the next id, in all_sprites and laser_sprites. */
  ghost predicate LaserAdded(v0: View, v1: View) {
    var n := v0.nextId;
    n in v1.sprites && v1.sprites[n].LaserSprite? && v1.sprites == v0.sprites[n := v1.sprites[n]]
    && v1.nextId == n + 1 && n in v1.poses && v1.poses == v0.poses[n := v1.poses[n]]
    && v1.all == v0.all + {n} && v1.lasers == v0.lasers + {n} && v1.meteors == v0.meteors
    && v1.score == v0.score
  }

  /** What moving the laser with id `id` and running groupcollide does to the view v0: the
      laser's pose becomes Next of its pose and it leaves the groups if DiesFrom says so;
      `pairs` are then the (laser, meteor) pairs whose rectangles satisfy hit, among the
      lasers still in the group and all the meteors; c is what groupcollide kills from them,
      and it leaves the groups; `crashed` says whether it killed anything. */
  ghost predicate LaserStruck(v0: View, v1: View, id: nat, dt: real, rotated: real -> Size, hit: (FRect, FRect) -> bool,
                         pairs: set<(nat, nat)>, c: Collision, crashed: bool) {
    id in v0.sprites && id in v0.poses
    && var gone := if DiesFrom(v0.sprites[id], v0.poses[id], dt) then {id} else {};
       var ls, ms := v0.lasers - gone, v0.meteors;
       v1.sprites == v0.sprites && v1.nextId == v0.nextId && v1.score == v0.score
       && v1.poses == v0.poses[id := Next(v0.sprites[id], v0.poses[id], dt, rotated)]
       && PairsBy(pairs, v1.poses, ls, ms, hit) && c == Groupcollide(ls, ms, pairs)
       && (crashed <==> pairs != {}) && (crashed <==> c.lasers != {})
       && v1.all == v0.all - gone - c.lasers - c.meteors
       && v1.lasers == ls - c.lasers && v1.meteors == ms - c.meteors
  }

  /** The laser with id `id` took the pose Next gives it and left the groups when DiesFrom
      says so; nothing else changed. */
  ghost predicate LaserMoved(v0: View, v1: View, id: nat, dt: real, rotated: real -> Size) {
    id in v0.sprites && id in v0.poses
    && var gone := if DiesFrom(v0.sprites[id], v0.poses[id], dt) then {id} else {};
       v1.sprites == v0.sprites && v1.nextId == v0.nextId && v1.score == v0.score
       && v1.poses == v0.poses[id := Next(v0.sprites[id], v0.poses[id], dt, rotated)]
       && v1.all == v0.all - gone && v1.meteors == v0.meteors && v1.lasers == v0.lasers - gone
  }

  /** The groups lost what the collision c kills; nothing else changed. */
  ghost predicate GroupsLose(v0: View, v1: View, c: Collision) {
    v1.sprites == v0.sprites && v1.nextId == v0.nextId && v1.score == v0.score && v1.poses == v0.poses
    && v1.all == v0.all - c.lasers - c.meteors && v1.lasers == v0.lasers - c.lasers
    && v1.meteors == v0.meteors - c.meteors
  }

  /** A laser that moved, followed by groupcollide on the overlapping pairs that are left, is
      LaserStruck. */
  lemma StruckStep(v0: View, vm: View, v1: View, id: nat, dt: real, rotated: real -> Size, hit: (FRect, FRect) -> bool,
                   pairs: set<(nat, nat)>, c: Collision, crashed: bool)
    requires LaserMoved(v0, vm, id, dt, rotated)
    requires PairsBy(pairs, vm.poses, vm.lasers, vm.meteors, hit)
    requires c == Groupcollide(vm.lasers, vm.meteors, pairs) && GroupsLose(vm, v1, c)
    requires crashed <==> c.lasers != {}
    ensures LaserStruck(v0, v1, id, dt, rotated, hit, pairs, c, crashed)
  {
    GroupcollideCrashes(vm.lasers, vm.meteors, pairs);
    if pairs != {} {
      var q :| q in pairs;
      assert (q.0, q.1) in pairs;
    }
  }

  /** An explosion registered under the next id, in all_sprites only, and a score one higher. */
  ghost predicate ExplosionAdded(v0: View, v1: View) {
    var n := v0.nextId;
    n in v1.sprites && v1.sprites[n].ExplosionSprite? && v1.sprites == v0.sprites[n := v1.sprites[n]]
    && v1.nextId == n + 1 && n in v1.poses && v1.poses == v0.poses[n := v1.poses[n]]
    && v1.all == v0.all + {n} && v1.meteors == v0.meteors && v1.lasers == v0.lasers
    && v1.score == v0.score + 1
  }

  /** What Laser.update does to the view v0, beyond OneStep: the laser moves and dies as Next
      and DiesFrom say; `pairs` are the (laser, meteor) pairs whose rectangles, as they are
      afterwards, satisfy hit, among the lasers still in the group and all the meteors; c is
      what groupcollide kills from them, and it leaves the groups; `crashed` says whether it
      killed anything, and exactly when it did, one explosion joins all_sprites under the next
      id and the score rises by one. */
  ghost predicate LaserOutcome(v0: View, v1: View, id: nat, dt: real, hit: (FRect, FRect) -> bool,
                               pairs: set<(nat, nat)>, c: Collision, crashed: bool) {
    id in v0.sprites && id in v0.poses
    && var gone := if DiesFrom(v0.sprites[id], v0.poses[id], dt) then {id} else {};
       var ls, ms := v0.lasers - gone, v0.meteors;
       PairsBy(pairs, v1.poses, ls, ms, hit) && c == Groupcollide(ls, ms, pairs)
       && (crashed <==> pairs != {}) && (crashed <==> c.lasers != {})
       && v1.all == v0.all - gone - c.lasers - c.meteors + (if crashed then {v0.nextId} else {})
       && v1.lasers == ls - c.lasers && v1.meteors == ms - c.meteors
       && v1.score == v0.score + (if crashed then 1 else 0)
       && (crashed ==> v1.nextId == v0.nextId + 1 && v0.nextId in v1.sprites && v1.sprites[v0.nextId].ExplosionSprite?
                       && v1.sprites == v0.sprites[v0.nextId := v1.sprites[v0.nextId]])
       && (!crashed ==> v1.nextId == v0.nextId && v1.sprites == v0.sprites)
  }

  /** A laser that is LaserStruck, followed by an explosion exactly when it crashed, makes one
      OneStep, with the LaserOutcome. */
  lemma LaserStep(v0: View, vs: View, v1: View, id: nat, dt: real, rotated: real -> Size, hit: (FRect, FRect) -> bool,
                  pairs: set<(nat, nat)>, c: Collision, crashed: bool)
    requires id in v0.sprites && v0.sprites[id].LaserSprite? && v0.sprites.Keys == v0.poses.Keys
    requires forall k :: k in v0.sprites ==> k < v0.nextId
    requires forall k :: k in v0.lasers ==> k in v0.sprites && v0.sprites[k].LaserSprite?
    requires forall k :: k in v0.meteors ==> k in v0.sprites && v0.sprites[k].MeteorSprite?
    requires LaserStruck(v0, vs, id, dt, rotated, hit, pairs, c, crashed)
    requires if crashed then ExplosionAdded(vs, v1) else v1 == vs
    ensures OneStep(v0, v1, id, dt, rotated)
    ensures LaserOutcome(v0, v1, id, dt, hit, pairs, c, crashed)
  {
    LaserOutcomeStep(v0, vs, v1, id, dt, rotated, hit, pairs, c, crashed);
    LaserSurvivors(v0, v1, id, dt, hit, pairs, c, crashed);
  }

  /** A laser that is LaserStruck, followed by an explosion exactly when it crashed, has the
      LaserOutcome. */
  lemma LaserOutcomeStep(v0: View, vs: View, v1: View, id: nat, dt: real, rotated: real -> Size, hit: (FRect, FRect) -> bool,
                         pairs: set<(nat, nat)>, c: Collision, crashed: bool)
    requires id in v0.sprites && v0.sprites.Keys == v0.poses.Keys
    requires forall k :: k in v0.sprites ==> k < v0.nextId
    requires LaserStruck(v0, vs, id, dt, rotated, hit, pairs, c, crashed)
    requires if crashed then ExplosionAdded(vs, v1) else v1 == vs
    ensures LaserOutcome(v0, v1, id, dt, hit, pairs, c, crashed)
  {
    var gone := if DiesFrom(v0.sprites[id], v0.poses[id], dt) then {id} else {};
    if crashed {
      PairsByAdded(pairs, vs.poses, v0.lasers - gone, v0.meteors, hit, v0.nextId, v1.poses[v0.nextId]);
    }
  }

  /** After a laser's update, a sprite is missing from all_sprites only if it is the laser
      itself and DiesFrom says so, or if it is a meteor or a laser and the score rose. */
  lemma LaserSurvivors(v0: View, v1: View, id: nat, dt: real, hit: (FRect, FRect) -> bool,
                       pairs: set<(nat, nat)>, c: Collision, crashed: bool)
    requires forall k :: k in v0.sprites ==> k < v0.nextId
    requires forall k :: k in v0.lasers ==> k in v0.sprites && v0.sprites[k].LaserSprite?
    requires forall k :: k in v0.meteors ==> k in v0.sprites && v0.sprites[k].MeteorSprite?
    requires LaserOutcome(v0, v1, id, dt, hit, pairs, c, crashed)
    ensures Survivors(v0, v1, id, dt)
  {
    var gone := if DiesFrom(v0.sprites[id], v0.poses[id], dt) then {id} else {};
    GroupcollideKillsOnlyStruckMeteors(v0.lasers - gone, v0.meteors, pairs);
  }

  /** Registering a sprite under a new id adds its pose and changes no other. */
  lemma PosesOfAdded(s: map<nat, Sprite>, n: nat, x: Sprite)
    requires n !in s
    ensures PosesOf(s[n := x]) == PosesOf(s)[n := PoseOf(x)]
  {
  }

  /** p holds the pose every sprite of the registry s has now. */
  ghost predicate TracksPoses(s: map<nat, Sprite>, p: map<nat, Pose>)
    reads MeteorsOf(s)`rect, MeteorsOf(s)`rotation, MeteorsOf(s)`image, LasersOf(s)`rect,
          ExplosionsOf(s)`frameIndex, ExplosionsOf(s)`image
  {
    p.Keys == s.Keys && forall k :: k in s ==> p[k] == PoseOf(s[k])
  }

  /** idOf gives each sprite object of s back its id, and neither w nor a is a sprite. */
  ghost predicate Owns(s: map<nat, Sprite>, idOf: map<object, nat>, w: object, a: object) {
    w !in idOf && a !in idOf
    && forall k :: k in s ==> s[k].Body() in idOf && idOf[s[k].Body()] == k
  }

  /** Registering a new sprite, whose object is no sprite yet, keeps the ids owned. */
  lemma OwnsGrown(s: map<nat, Sprite>, idOf: map<object, nat>, w: object, a: object, n: nat, x: Sprite)
    requires Owns(s, idOf, w, a) && n !in s && x.Body() !in idOf && x.Body() != w && x.Body() != a
    ensures Owns(s[n := x], idOf[x.Body() := n], w, a)
  {
  }

  /** Registering a new sprite with its pose keeps the poses tracked. */
  lemma TracksGrown(s: map<nat, Sprite>, p: map<nat, Pose>, n: nat, x: Sprite)
    requires TracksPoses(s, p) && n !in s
    ensures TracksPoses(s[n := x], p[n := PoseOf(x)])
  {
  }

  /** The registry only grows: old ids keep their sprites, and new ids are at least `from`. */
  predicate Grows(s0: map<nat, Sprite>, s1: map<nat, Sprite>, from: nat) {
    (forall k :: k in s0 ==> k in s1 && s1[k] == s0[k])
    && (forall k :: k in s1 && k !in s0 ==> from <= k)
  }

  /** Registering a sprite under an id above every registered one only grows the registry. */
  lemma GrowsByAdding(s0: map<nat, Sprite>, n: nat, v: Sprite)
    requires forall k :: k in s0 ==> k < n
    ensures Grows(s0, s0[n := v], n)
  {
  }

  /** The registry and the groups agree: the ship is the one ship sprite and always in
      all_sprites; every id was handed out; every explosion has frames; only registered
      sprites are in all_sprites; the meteor and laser groups are exactly the meteors and
      lasers of all_sprites. */
  ghost predicate Coherent(s: map<nat, Sprite>, shipId: nat, ship: Ship, nextId: nat,
                           all: set<nat>, meteors: set<nat>, lasers: set<nat>) {
    shipId in s && s[shipId] == ShipSprite(ship)
    && (forall k :: k in s && s[k].ShipSprite? ==> k == shipId)
    && (forall k :: k in s ==> k < nextId)
    && (forall k :: k in s && s[k].ExplosionSprite? ==> |s[k].explosion.frames| > 0)
    && shipId in all
    && (forall k :: k in all ==> k in s)
    && (forall k :: k in meteors <==> k in all && k in s && s[k].MeteorSprite?)
    && (forall k :: k in lasers <==> k in all && k in s && s[k].LaserSprite?)
  }

  /** Killing sprites other than the ship keeps the registry and the groups coherent. */
  lemma KillCoherent(s: map<nat, Sprite>, shipId: nat, ship: Ship, nextId: nat,
                     all: set<nat>, meteors: set<nat>, lasers: set<nat>, gone: set<nat>)
    requires Coherent(s, shipId, ship, nextId, all, meteors, lasers) && shipId !in gone
    ensures Coherent(s, shipId, ship, nextId, all - gone, meteors - gone, lasers - gone)
  {
  }

  /** Registering a sprite other than a ship under the next id, in all_sprites and in the
      group of its kind, keeps the registry and the groups coherent. */
  lemma AddCoherent(s: map<nat, Sprite>, shipId: nat, ship: Ship, nextId: nat,
                    all: set<nat>, meteors: set<nat>, lasers: set<nat>, x: Sprite)
    requires Coherent(s, shipId, ship, nextId, all, meteors, lasers)
    requires !x.ShipSprite? && (x.ExplosionSprite? ==> |x.explosion.frames| > 0)
    ensures Coherent(s[nextId := x], shipId, ship, nextId + 1, all + {nextId},
                     if x.MeteorSprite? then meteors + {nextId} else meteors,
                     if x.LaserSprite? then lasers + {nextId} else lasers)
  {
  }

  /** A group went from `before` to `after` by gaining exactly the ids lo, ..., hi - 1. */
  ghost predicate Gained(before: set<nat>, after: set<nat>, lo: int, hi: int) {
    forall k :: k in after <==> k in before || lo <= k < hi
  }

  /** Gaining the ids a..b-1 and then b..c-1 is gaining a..c-1. */
  lemma GainedTwice(s0: set<nat>, s1: set<nat>, s2: set<nat>, a: int, b: int, c: int)
    requires a <= b <= c && Gained(s0, s1, a, b) && Gained(s1, s2, b, c)
    ensures Gained(s0, s2, a, c)
  {
  }

  /** A star shows `image` centred on the drawn point d. */
  predicate PlacedAt(star: Stars, image: Size, d: (int, int)) {
    star.rect == RectAtCenter(image, Vec(d.0 as real, d.1 as real))
  }

  /** Every sprite other than the ship is a star showing `image` centred on its draw: the
      sprite with id k on draws[k - first]. */
  ghost predicate StarsAt(sprites: map<nat, Sprite>, shipId: nat, image: Size, draws: seq<(int, int)>, first: nat) {
    forall k :: k in sprites && k != shipId ==>
      sprites[k].StarSprite? && first <= k < first + |draws| && PlacedAt(sprites[k].star, image, draws[k - first])
  }

  /** The registry holds exactly the ids lo, ..., hi - 1. */
  ghost predicate Spans(sprites: map<nat, Sprite>, lo: int, hi: int) {
    forall k :: k in sprites <==> lo <= k < hi
  }

  /** A registry holding exactly the ids lo, ..., hi - 1 holds hi - lo sprites. */
  lemma {:induction false} SpansSize(sprites: map<nat, Sprite>, lo: int, hi: int)
    requires lo <= hi && Spans(sprites, lo, hi)
    ensures |sprites| == hi - lo
    decreases hi - lo
  {
    if lo == hi {
      assert sprites.Keys == {};
    } else {
      var rest := sprites - {hi - 1};
      assert Spans(rest, lo, hi - 1);
      SpansSize(rest, lo, hi - 1);
      assert sprites.Keys == rest.Keys + {hi - 1};
    }
  }

  /** The twenty Stars(...) of new_screen, with ids from `first` on, all added to all_sprites. */
  method PlaceStars(assets: Assets, first: nat, starDraws: seq<(int, int)>)
    returns (sprites: map<nat, Sprite>, ghost idOf: map<object, nat>)
    requires StarDraws(starDraws) && assets.allSprites == {}
    modifies assets`allSprites
    ensures assets.allSprites == sprites.Keys && Spans(sprites, first, first + 20)
    ensures forall k :: k in sprites ==>
              sprites[k].StarSprite? && fresh(sprites[k].star)
              && PlacedAt(sprites[k].star, assets.starImage, starDraws[k - first])
    ensures forall k :: k in sprites ==> sprites[k].Body() in idOf && idOf[sprites[k].Body()] == k
    ensures forall o :: o in idOf ==> fresh(o)
  {
    sprites, idOf := map[], map[];
    for i := 0 to 20
      invariant forall k :: k in sprites <==> first <= k < first + i
      invariant forall k :: k in sprites ==>
                  sprites[k].StarSprite? && fresh(sprites[k].star)
                  && PlacedAt(sprites[k].star, assets.starImage, starDraws[k - first])
      invariant forall k :: k in sprites ==> sprites[k].Body() in idOf && idOf[sprites[k].Body()] == k
      invariant forall o :: o in idOf ==> fresh(o)
    {
      var star := new Stars(assets.starImage, starDraws[i].0, starDraws[i].1);
      assert first + i !in sprites;
      sprites := sprites[first + i := StarSprite(star)];
      idOf := idOf[star := first + i];
    }
    assets.allSprites := sprites.Keys;
  }

  /** The sprites of new_screen: twenty stars, then one ship, all in all_sprites, with ids
      from `first` on, into groups that must be empty. */
  method Populate(assets: Assets, first: nat, starDraws: seq<(int, int)>)
    returns (sprites: map<nat, Sprite>, ship: Ship, shipId: nat, ghost idOf: map<object, nat>)
    requires StarDraws(starDraws) && assets.allSprites == {}
    modifies assets`allSprites
    ensures fresh(ship) && ship.meteorsDestroyed == 0 && ship.shoot && ship.shootTime == 0
    ensures shipId == first + 20 && Spans(sprites, first, shipId + 1)
    ensures sprites[shipId] == ShipSprite(ship)
    ensures StarsAt(sprites, shipId, assets.starImage, starDraws, first)
    ensures forall k :: k in sprites && k != shipId ==> sprites[k].StarSprite? && fresh(sprites[k].star)
    ensures assets.allSprites == sprites.Keys
    ensures forall k :: k in sprites ==> sprites[k].Body() in idOf && idOf[sprites[k].Body()] == k
    ensures forall o :: o in idOf ==> fresh(o)
  {
    var stars;
    stars, idOf := PlaceStars(assets, first, starDraws);
    ship := new Ship(assets.shipImage);
    shipId := first + 20;
    assert shipId !in stars;
    sprites := stars[shipId := ShipSprite(ship)];
    idOf := idOf[ship := shipId];
    assets.allSprites := assets.allSprites + {shipId};
  }

  class SpaceShooter {
    const assets: Assets
    /** The factor 1/sqrt(2) by which Vector2.normalize() scales a diagonal direction. */
    const diag: real
    /** The size of the meteor image rotated by an angle (pygame.transform.rotozoom). */
    const rotated: real -> Size
    /** The pixel-mask overlap test of a laser and a meteor, and of the ship and a meteor,
        given their rectangles. */
    const laserHit: (FRect, FRect) -> bool
    const shipHit: (FRect, FRect) -> bool

    /** game.running */
    var running: bool
    /** The video settings (width, height, vsync) written by resize_screen. */
    var video: (int, int, int)
    var ship: Ship
    var shipId: nat
    var sprites: map<nat, Sprite>
    /** The next sprite id to hand out. */
    var nextId: nat
    /** Which id each registered sprite object has: no object is registered twice. */
    ghost var idOf: map<object, nat>
    /** The pose of every registered sprite, as tracked through all_sprites.update. */
    ghost var poses: map<nat, Pose>
    /** The current meteor timer's event type, and how many custom types were handed out. */
    var meteorEvent: nat
    var eventTypes: nat

    ghost predicate Loaded() {
      |assets.explosionFrames| > 0
    }

    predicate IsMeteor(k: nat) reads this`sprites { k in sprites && sprites[k].MeteorSprite? }
    predicate IsLaser(k: nat) reads this`sprites { k in sprites && sprites[k].LaserSprite? }

    /** The world's invariant: the meteor event type is one handed out, and the registry
        and the groups are coherent. */
    ghost predicate Valid()
      reads this`sprites, this`shipId, this`ship, this`nextId, this`meteorEvent, this`eventTypes,
            assets`allSprites, assets`meteorSprites, assets`laserSprites
    {
      Loaded() && meteorEvent < eventTypes
      && Coherent(sprites, shipId, ship, nextId, assets.allSprites, assets.meteorSprites, assets.laserSprites)
    }

    /** No sprite object is registered under two ids: idOf gives each one back its id (and
        neither the world nor its asset store is a sprite). */
    ghost predicate Owned()
      reads this`sprites, this`idOf
    {
      Owns(sprites, idOf, this, assets)
    }

    /** The objects the registered sprites stand for. */
    function Bodies(): set<object>
      reads this
    {
      BodiesOf(sprites)
    }

    /** The world as a View, with the poses read off the sprites. */
    ghost function Snapshot(): View
      reads this`sprites, this`nextId, this`poses, this`ship, assets`allSprites, assets`meteorSprites,
            assets`laserSprites, ship`meteorsDestroyed, MeteorsOf(sprites)`rect, MeteorsOf(sprites)`rotation, MeteorsOf(sprites)`image, LasersOf(sprites)`rect,
            ExplosionsOf(sprites)`frameIndex, ExplosionsOf(sprites)`image
    {
      State().(poses := PosesOf(sprites))
    }

    /** The world as a View, with the tracked poses. */
    ghost function State(): View
      reads this`sprites, this`nextId, this`poses, this`ship, assets`allSprites, assets`meteorSprites,
            assets`laserSprites, ship`meteorsDestroyed
    {
      View(sprites, nextId, assets.allSprites, assets.meteorSprites, assets.laserSprites, ship.meteorsDestroyed, poses)
    }

    /** The tracked poses are the poses the sprites have. */
    ghost predicate Tracked()
      reads this`sprites, this`poses, MeteorsOf(sprites)`rect, MeteorsOf(sprites)`rotation, MeteorsOf(sprites)`image, LasersOf(sprites)`rect,
            ExplosionsOf(sprites)`frameIndex, ExplosionsOf(sprites)`image
    {
      TracksPoses(sprites, poses)
    }

    /** The (laser, meteor) pairs of the two groups whose masks overlap. */
    function HitPairs(): set<(nat, nat)>
      requires Valid()
      reads this, assets, LasersOf(sprites)`rect, MeteorsOf(sprites)`rect
    {
      PairsIn(sprites, assets.laserSprites, assets.meteorSprites, laserHit)
    }

    /** The meteors whose masks overlap the ship's. */
    function ShipHits(): set<nat>
      requires Valid()
      reads this, assets, ship`rect, MeteorsOf(sprites)`rect
    {
      set m | m in assets.meteorSprites && shipHit(ship.rect, sprites[m].meteor.rect)
    }

    /** SpaceShooter.__init__: load the assets and build the first world. */
    constructor (shipImage: Size, starImage: Size, meteorImage: Size, laserImage: Size,
                 sheetW: int, sheetH: int, diag: real, rotated: real -> Size,
                 laserHit: (FRect, FRect) -> bool, shipHit: (FRect, FRect) -> bool,
                 video: (int, int, int), starDraws: seq<(int, int)>)
      requires sheetW >= 250 && sheetH >= 250
      requires StarDraws(starDraws)
      ensures Valid() && Owned() && running && this.video == video && meteorEvent == 0
      ensures ship.meteorsDestroyed == 0 && shipId == 20 && nextId == 21 && Spans(sprites, 0, 21)
      ensures assets.allSprites == sprites.Keys
      ensures assets.meteorSprites == {} && assets.laserSprites == {}
    {
      var a := new Assets(shipImage, starImage, meteorImage, laserImage, sheetW, sheetH);
      var s, sh, id, owners := Populate(a, 0, starDraws);
      assets := a;
      this.diag := diag;
      this.rotated := rotated;
      this.laserHit := laserHit;
      this.shipHit := shipHit;
      running := true;
      this.video := video;
      sprites, ship, shipId, idOf := s, sh, id, owners;
      nextId := id + 1;
      meteorEvent := 0;
      eventTypes := 1;
    }

    /** new_screen: fresh groups, 20 stars, one new ship, a new meteor timer event type. */
    method NewScreen(starDraws: seq<(int, int)>)
      requires Loaded() && StarDraws(starDraws)
      modifies this`ship, this`shipId, this`sprites, this`nextId, this`idOf, this`meteorEvent, this`eventTypes,
               assets`allSprites, assets`meteorSprites, assets`laserSprites
      ensures Valid() && Owned()
      ensures fresh(ship) && ship.meteorsDestroyed == 0 && ship.shoot && ship.shootTime == 0
      ensures assets.allSprites == sprites.Keys
      ensures assets.meteorSprites == {} && assets.laserSprites == {}
      ensures shipId == old(nextId) + 20 && nextId == shipId + 1 && Spans(sprites, old(nextId), nextId)
      ensures StarsAt(sprites, shipId, assets.starImage, starDraws, old(nextId))
      ensures meteorEvent == old(eventTypes) && eventTypes == old(eventTypes) + 1
    {
      assets.Groups();
      var s, sh, id, owners := Populate(assets, nextId, starDraws);
      sprites, ship, shipId, nextId, meteorEvent, eventTypes := s, sh, id, id + 1, eventTypes, eventTypes + 1;
      idOf := owners;
    }

    /** Sprite.kill() of every sprite in `ids`: remove them from every group. */
    method KillAll(ids: set<nat>)
      requires Valid() && shipId !in ids
      modifies assets`allSprites, assets`meteorSprites, assets`laserSprites
      ensures Valid() && (old(Owned()) ==> Owned()) && (old(Tracked()) ==> Tracked())
      ensures assets.allSprites == old(assets.allSprites) - ids
      ensures assets.meteorSprites == old(assets.meteorSprites) - ids
      ensures assets.laserSprites == old(assets.laserSprites) - ids
    {
      assets.allSprites := assets.allSprites - ids;
      assets.meteorSprites := assets.meteorSprites - ids;
      assets.laserSprites := assets.laserSprites - ids;
      KillCoherent(sprites, shipId, ship, nextId, old(assets.allSprites), old(assets.meteorSprites), old(assets.laserSprites), ids);
    }

    /** kill() on the sprite id, a sprite other than the ship, when `dies` says so. */
    method Dismiss(id: nat, dies: bool)
      requires Valid() && Owned() && Tracked() && id != shipId
      modifies assets`allSprites, assets`meteorSprites, assets`laserSprites
      ensures Valid() && Owned() && Tracked()
      ensures var gone := if dies then {id} else {};
              assets.allSprites == old(assets.allSprites) - gone
              && assets.meteorSprites == old(assets.meteorSprites) - gone
              && assets.laserSprites == old(assets.laserSprites) - gone
    {
      if dies {
        KillAll({id});
      }
    }

    /** A meteor timer event: Meteor(...) registered in all_sprites and meteor_sprites. */
    method SpawnMeteor(draw: MeteorDraw, now: int)
      requires Valid() && ValidDraw(draw)
      modifies this`sprites, this`nextId, this`idOf, assets`allSprites, assets`meteorSprites
      ensures Valid() && (old(Owned()) ==> Owned())
      ensures nextId == old(nextId) + 1
      ensures old(nextId) in sprites && sprites[old(nextId)].MeteorSprite?
      ensures sprites == old(sprites)[old(nextId) := sprites[old(nextId)]]
      ensures var m := sprites[old(nextId)].meteor;
              fresh(m) && m.speed == draw.speed && m.direction == Vec(draw.drift, 1.0) && m.rotationSpeed == draw.spin && m.creationTime == now
              && m.rect == RectAtMidBottom(assets.meteorImage, Vec(draw.x as real, 0.0))
      ensures assets.allSprites == old(assets.allSprites) + {old(nextId)}
      ensures assets.meteorSprites == old(assets.meteorSprites) + {old(nextId)}
    {
      var meteor := new Meteor(assets.meteorImage, draw.x, draw.speed, draw.drift, now, draw.coin, draw.spin);
      sprites := sprites[nextId := MeteorSprite(meteor)];
      idOf := idOf[meteor := nextId];
      assets.allSprites := assets.allSprites + {nextId};
      assets.meteorSprites := assets.meteorSprites + {nextId};
      nextId := nextId + 1;
      AddCoherent(old(sprites), shipId, ship, old(nextId), old(assets.allSprites), old(assets.meteorSprites),
                  assets.laserSprites, MeteorSprite(meteor));
    }

    /** One event of the queue: a QUIT stops the game; an event of the current meteor type
        spawns one meteor; anything else, stale timer types included, is ignored. */
    method OneEvent(event: Event, now: int)
      requires Valid() && (event.Custom? ==> ValidDraw(event.draw))
      modifies this`running, this`sprites, this`nextId, this`idOf, assets`allSprites, assets`meteorSprites
      ensures Valid() && (old(Owned()) ==> Owned())
      ensures running == (old(running) && event != Quit)
      ensures nextId == old(nextId) + SpawnsOn(event, meteorEvent)
      ensures Gained(old(assets.allSprites), assets.allSprites, old(nextId), nextId)
      ensures Gained(old(assets.meteorSprites), assets.meteorSprites, old(nextId), nextId)
      ensures Grows(old(sprites), sprites, old(nextId))
      ensures forall k :: k in sprites && k !in old(sprites) ==> sprites[k].MeteorSprite? && fresh(sprites[k].meteor)
      ensures forall o :: o in Bodies() ==> o in old(Bodies()) || fresh(o)
    {
      if event == Quit {
        running := false;
      }
      if event.Custom? && event.kind == meteorEvent {
        SpawnMeteor(event.draw, now);
      }
    }

    /** events(): every event of the queue, in order. */
    method Events(events: seq<Event>, now: int)
      requires Valid() && ValidEvents(events)
      modifies this`running, this`sprites, this`nextId, this`idOf, assets`allSprites, assets`meteorSprites
      ensures Valid() && (old(Owned()) ==> Owned())
      ensures running == (old(running) && Quit !in events)
      ensures nextId == old(nextId) + Spawns(events, meteorEvent)
      ensures Gained(old(assets.allSprites), assets.allSprites, old(nextId), nextId)
      ensures Gained(old(assets.meteorSprites), assets.meteorSprites, old(nextId), nextId)
      ensures forall o :: o in Bodies() ==> o in old(Bodies()) || fresh(o)
    {
      for i := 0 to |events|
        invariant Valid() && (old(Owned()) ==> Owned())
        invariant running == (old(running) && Quit !in events[..i])
        invariant nextId == old(nextId) + Spawns(events[..i], meteorEvent)
        invariant Gained(old(assets.allSprites), assets.allSprites, old(nextId), nextId)
        invariant Gained(old(assets.meteorSprites), assets.meteorSprites, old(nextId), nextId)
        invariant forall o :: o in Bodies() ==> o in old(Bodies()) || fresh(o)
      {
        PrefixStep(events, i, meteorEvent);
        ghost var all0, meteors0, id0 := assets.allSprites, assets.meteorSprites, nextId;
        OneEvent(events[i], now);
        GainedTwice(old(assets.allSprites), all0, assets.allSprites, old(nextId), id0, nextId);
        GainedTwice(old(assets.meteorSprites), meteors0, assets.meteorSprites, old(nextId), id0, nextId);
      }
      assert events[..|events|] == events;
    }

    /** groupcollide(laser_sprites, meteor_sprites, True, True, collide_mask), with the
        killed sprites removed from every group. */
    method GroupCollide() returns (crashed: bool, c: Collision)
      requires Valid()
      modifies assets`allSprites, assets`meteorSprites, assets`laserSprites
      ensures Valid() && (old(Owned()) ==> Owned()) && (old(Tracked()) ==> Tracked())
      ensures c == Groupcollide(old(assets.laserSprites), old(assets.meteorSprites), old(HitPairs()))
      ensures GroupsLose(old(State()), State(), c)
      ensures crashed <==> c.lasers != {}
    {
      c := Groupcollide(assets.laserSprites, assets.meteorSprites, HitPairs());
      KillAll(c.lasers + c.meteors);
      crashed := c.lasers != {};
    }

    /** The ship's update inside all_sprites.update: move and maybe fire; a fired laser is
        registered in all_sprites and laser_sprites. */
    method UpdateShip(dt: real, now: int, keys: Keys, shootJustPressed: bool) returns (fired: bool)
      requires Valid() && Owned() && Tracked() && diag > 0.0
      modifies ship`direction, ship`rect, ship`shoot, ship`shootTime,
               this`sprites, this`nextId, this`idOf, this`poses, assets`allSprites, assets`laserSprites
      ensures Valid() && Owned() && Tracked()
      ensures OneStep(old(State()), State(), shipId, dt, rotated)
      ensures ship.Stepped(dt, keys, shootJustPressed, now, diag)
      ensures (ship.Gun(), fired) == Fire(old(ship.Gun()), ship.shootDuration, shootJustPressed, now)
      ensures fired ==> nextId == old(nextId) + 1 && old(nextId) in sprites && sprites[old(nextId)].LaserSprite?
                        && sprites == old(sprites)[old(nextId) := sprites[old(nextId)]]
                        && fresh(sprites[old(nextId)].laser)
                        && sprites[old(nextId)].laser.rect == RectAtMidBottom(assets.laserImage, ship.rect.MidTop())
                        && assets.allSprites == old(assets.allSprites) + {old(nextId)}
                        && assets.laserSprites == old(assets.laserSprites) + {old(nextId)}
      ensures !fired ==> nextId == old(nextId) && sprites == old(sprites)
                         && assets.allSprites == old(assets.allSprites) && assets.laserSprites == old(assets.laserSprites)
    {
      ghost var v0 := State();
      var at := ship.Update(dt, keys, shootJustPressed, now, diag);
      fired := at.Some?;
      if fired {
        AddLaser(at.value);
      }
      ShipStep(v0, State(), shipId, fired, dt, rotated);
    }

    /** Laser(...) with its mid-bottom at `pos`, registered in all_sprites and laser_sprites. */
    method AddLaser(pos: Vec)
      requires Valid() && Owned() && Tracked()
      modifies this`sprites, this`nextId, this`idOf, this`poses, assets`allSprites, assets`laserSprites
      ensures Valid() && Owned() && Tracked()
      ensures LaserAdded(old(State()), State())
      ensures var l := sprites[old(nextId)].laser;
              fresh(l) && l.rect == RectAtMidBottom(assets.laserImage, pos)
      ensures poses == old(poses)[old(nextId) := PoseOf(sprites[old(nextId)])]
    {
      var laser := new Laser(assets.laserImage, pos);
      RegisterLaser(laser);
    }

    /** Registers a laser that is not a sprite yet under the next id, in all_sprites and
        laser_sprites. */
    method RegisterLaser(laser: Laser)
      requires Valid() && Owned() && Tracked() && laser !in idOf
      modifies this`sprites, this`nextId, this`idOf, this`poses, assets`allSprites, assets`laserSprites
      ensures Valid() && Owned() && Tracked()
      ensures LaserAdded(old(State()), State()) && sprites[old(nextId)].laser == laser
      ensures poses == old(poses)[old(nextId) := LaserPose(laser.rect)]
    {
      assets.allSprites := assets.allSprites + {nextId};
      assets.laserSprites := assets.laserSprites + {nextId};
      Enlist(LaserSprite(laser));
      AddCoherent(old(sprites), shipId, ship, old(nextId), old(assets.allSprites), old(assets.meteorSprites),
                  old(assets.laserSprites), LaserSprite(laser));
    }

    /** Registers the sprite x, whose object is no sprite yet, under the next id, with its
        pose; the groups are left to the caller. */
    method Enlist(x: Sprite)
      requires Owned() && Tracked() && x.Body() !in idOf && nextId !in sprites
      modifies this`sprites, this`nextId, this`idOf, this`poses
      ensures Owned() && Tracked()
      ensures sprites == old(sprites)[old(nextId) := x] && nextId == old(nextId) + 1
      ensures poses == old(poses)[old(nextId) := PoseOf(x)]
    {
      TracksGrown(sprites, poses, nextId, x);
      OwnsGrown(sprites, idOf, this, assets, nextId, x);
      sprites := sprites[nextId := x];
      poses := poses[nextId := PoseOf(x)];
      idOf := idOf[x.Body() := nextId];
      nextId := nextId + 1;
    }

    /** When only the object of sprite id may have changed, and no other sprite shares it,
        updating the pose of id keeps the poses tracked. */
    twostate lemma Retracked(new id: nat)
      requires old(Tracked()) && id in old(sprites)
      requires forall k :: k in old(sprites) && k != id ==>
        old(sprites)[k].Body() != old(sprites)[id].Body() && unchanged(old(sprites)[k].Body())
      ensures TracksPoses(old(sprites), old(poses)[id := PoseOf(old(sprites)[id])])
    {
    }

    /** Explosion(...) centred on `pos`, registered in all_sprites. */
    method AddExplosion(pos: Vec)
      requires Valid() && Owned() && Tracked()
      modifies this`sprites, this`nextId, this`idOf, this`poses, assets`allSprites
      ensures Valid() && Owned() && Tracked()
      ensures nextId == old(nextId) + 1 && old(nextId) in sprites && sprites[old(nextId)].ExplosionSprite?
      ensures sprites == old(sprites)[old(nextId) := sprites[old(nextId)]]
      ensures var e := sprites[old(nextId)].explosion;
              fresh(e) && e.frames == assets.explosionFrames && e.frameIndex == 0.0 && e.rect.Center() == pos
      ensures assets.allSprites == old(assets.allSprites) + {old(nextId)}
      ensures poses == old(poses)[old(nextId) := PoseOf(sprites[old(nextId)])]
    {
      var explosion := new Explosion(assets.explosionFrames, pos);
      RegisterExplosion(explosion);
    }

    /** Registers an explosion with frames that is not a sprite yet under the next id, in
        all_sprites. */
    method RegisterExplosion(explosion: Explosion)
      requires Valid() && Owned() && Tracked() && explosion !in idOf && |explosion.frames| > 0
      modifies this`sprites, this`nextId, this`idOf, this`poses, assets`allSprites
      ensures Valid() && Owned() && Tracked()
      ensures nextId == old(nextId) + 1 && sprites == old(sprites)[old(nextId) := ExplosionSprite(explosion)]
      ensures assets.allSprites == old(assets.allSprites) + {old(nextId)}
      ensures poses == old(poses)[old(nextId) := ExplosionPose(explosion.frameIndex, explosion.image)]
    {
      assets.allSprites := assets.allSprites + {nextId};
      Enlist(ExplosionSprite(explosion));
      AddCoherent(old(sprites), shipId, ship, old(nextId), old(assets.allSprites), assets.meteorSprites,
                  assets.laserSprites, ExplosionSprite(explosion));
    }

    /** The motion part of Laser.update: move up, and die once off the top of the screen. */
    method MoveLaser(id: nat, dt: real)
      requires Valid() && Owned() && Tracked() && IsLaser(id)
      modifies sprites[id].laser, this`poses, assets`allSprites, assets`meteorSprites, assets`laserSprites
      ensures Valid() && Owned() && Tracked()
      ensures LaserMoved(old(State()), State(), id, dt, rotated)
    {
      var offTop := sprites[id].laser.Update(dt);
      Retracked(id);
      poses := poses[id := LaserPose(sprites[id].laser.rect)];
      if offTop {
        KillAll({id});
      }
    }

    /** The group part of Laser.update: move up, die off the top, then groupcollide over the
        laser group (without this laser if it just died) and the meteor group, by the
        rectangles after the move. Returns whether a laser was killed, this laser's mid-top
        after the move, and the sprites groupcollide killed. */
    method LaserStrike(id: nat, dt: real) returns (crashed: bool, at: Vec, ghost c: Collision, ghost pairs: set<(nat, nat)>)
      requires Valid() && Owned() && Tracked() && IsLaser(id)
      modifies sprites[id].laser, this`poses, assets`allSprites, assets`meteorSprites, assets`laserSprites
      ensures Valid() && Owned() && Tracked()
      ensures LaserStruck(old(State()), State(), id, dt, rotated, laserHit, pairs, c, crashed)
      ensures unchanged(ship`rect, ship`direction, ship`shoot, ship`shootTime)
      ensures at == poses[id].rect.MidTop()
    {
      ghost var v0 := State();
      MoveLaser(id, dt);
      ghost var vm := State();
      pairs := HitPairs();
      PairsByPoses(sprites, poses, assets.laserSprites, assets.meteorSprites, laserHit);
      crashed, c := GroupCollide();
      at := sprites[id].laser.rect.MidTop();
      StruckStep(v0, vm, State(), id, dt, rotated, laserHit, pairs, c, crashed);
    }

    /** What a laser's hit does: an explosion appears centred on pos and the score rises by one.
        Laser.update creates the explosion first; nothing reads the score or the registry in
        between, so the two writes are done here in the other order. */
    method Explode(pos: Vec)
      requires Valid() && Owned() && Tracked()
      modifies this`sprites, this`nextId, this`idOf, this`poses, assets`allSprites, ship`meteorsDestroyed
      ensures Valid() && Owned() && Tracked()
      ensures ExplosionAdded(old(State()), State())
      ensures unchanged(ship`rect, ship`direction, ship`shoot, ship`shootTime)
      ensures fresh(sprites[old(nextId)].explosion) && sprites[old(nextId)].explosion.rect.Center() == pos
    {
      ship.meteorsDestroyed := ship.meteorsDestroyed + 1;
      AddExplosion(pos);
    }

    /** Laser.update inside all_sprites.update: move up, die off the top, then groupcollide;
        if it killed anything, one explosion appears centred on this laser's mid-top and the
        score rises by exactly one. */
    method UpdateLaser(id: nat, dt: real) returns (crashed: bool, ghost c: Collision, ghost pairs: set<(nat, nat)>)
      requires Valid() && Owned() && Tracked() && IsLaser(id)
      modifies sprites[id].laser, this`sprites, this`nextId, this`idOf, this`poses,
               assets`allSprites, assets`meteorSprites, assets`laserSprites, ship`meteorsDestroyed
      ensures Valid() && Owned() && Tracked()
      ensures OneStep(old(State()), State(), id, dt, rotated)
      ensures unchanged(ship`rect, ship`direction, ship`shoot, ship`shootTime)
      ensures LaserOutcome(old(State()), State(), id, dt, laserHit, pairs, c, crashed)
      ensures crashed ==> fresh(sprites[old(nextId)].explosion)
                          && sprites[old(nextId)].explosion.rect.Center() == poses[id].rect.MidTop()
    {
      ghost var v0 := State();
      var at;
      crashed, at, c, pairs := LaserStrike(id, dt);
      ghost var vs := State();
      if crashed {
        Explode(at);
      }
      LaserStep(v0, vs, State(), id, dt, rotated, laserHit, pairs, c, crashed);
    }

    /** Meteor.update inside all_sprites.update: fall and spin, and leave every group once
        the moved top is at the bottom edge or below. */
    method UpdateMeteor(id: nat, dt: real)
      requires Valid() && Owned() && Tracked() && IsMeteor(id)
      modifies sprites[id].meteor, this`poses, assets`allSprites, assets`meteorSprites, assets`laserSprites
      ensures Valid() && Owned() && Tracked()
      ensures OneStep(old(State()), State(), id, dt, rotated)
      ensures unchanged(ship`rect, ship`direction, ship`shoot, ship`shootTime)
      ensures var m := sprites[id].meteor;
              (m.rect, m.rotation, m.image) == m.After(old(m.rect), old(m.rotation), dt, rotated)
      ensures var gone := if sprites[id].meteor.FallsOff(old(sprites[id].meteor.rect), dt) then {id} else {};
              assets.allSprites == old(assets.allSprites) - gone
              && assets.meteorSprites == old(assets.meteorSprites) - gone
              && assets.laserSprites == old(assets.laserSprites)
    {
      ghost var v0 := State();
      var offBottom := FallMeteor(id, dt);
      ghost var v1 := State();
      Dismiss(id, offBottom);
      InPlaceStep(v0, v1, State(), id, offBottom, dt, rotated);
    }

    /** The motion part of Meteor.update, with its pose tracked: returns whether the meteor
        falls off the bottom edge. */
    method FallMeteor(id: nat, dt: real) returns (offBottom: bool)
      requires Valid() && Owned() && Tracked() && IsMeteor(id)
      modifies sprites[id].meteor, this`poses
      ensures Valid() && Owned() && Tracked()
      ensures Posed(old(State()), State(), id, dt, rotated)
      ensures offBottom == DiesFrom(sprites[id], old(poses)[id], dt)
      ensures unchanged(ship`rect, ship`direction, ship`shoot, ship`shootTime)
      ensures var m := sprites[id].meteor;
              (m.rect, m.rotation, m.image) == m.After(old(m.rect), old(m.rotation), dt, rotated)
              && (offBottom <==> m.FallsOff(old(m.rect), dt))
    {
      offBottom := sprites[id].meteor.Update(dt, rotated);
      poses := poses[id := PoseOf(sprites[id])];
      Retracked(id);
    }

    /** Explosion.update inside all_sprites.update: animate, and leave every group once the
        last frame is shown. */
    method UpdateExplosion(id: nat, dt: real)
      requires Valid() && Owned() && Tracked() && id in sprites && sprites[id].ExplosionSprite?
      modifies sprites[id].explosion, this`poses, assets`allSprites, assets`meteorSprites, assets`laserSprites
      ensures Valid() && Owned() && Tracked()
      ensures OneStep(old(State()), State(), id, dt, rotated)
      ensures unchanged(ship`rect, ship`direction, ship`shoot, ship`shootTime)
      ensures var e := sprites[id].explosion;
              (e.frameIndex, e.image) == e.After(old(e.frameIndex), dt)
      ensures var gone := if sprites[id].explosion.Finished() then {id} else {};
              assets.allSprites == old(assets.allSprites) - gone
              && assets.meteorSprites == old(assets.meteorSprites)
              && assets.laserSprites == old(assets.laserSprites)
    {
      ghost var v0 := State();
      assert id !in assets.meteorSprites && id !in assets.laserSprites;
      var finished := Animate(id, dt);
      ghost var v1 := State();
      Dismiss(id, finished);
      InPlaceStep(v0, v1, State(), id, finished, dt, rotated);
    }

    /** The animation part of Explosion.update, with its pose tracked: returns whether the
        last frame is shown. */
    method Animate(id: nat, dt: real) returns (finished: bool)
      requires Valid() && Owned() && Tracked() && id in sprites && sprites[id].ExplosionSprite?
      modifies sprites[id].explosion, this`poses
      ensures Valid() && Owned() && Tracked()
      ensures Posed(old(State()), State(), id, dt, rotated)
      ensures finished == DiesFrom(sprites[id], old(poses)[id], dt)
      ensures unchanged(ship`rect, ship`direction, ship`shoot, ship`shootTime)
      ensures var e := sprites[id].explosion;
              (e.frameIndex, e.image) == e.After(old(e.frameIndex), dt) && (finished <==> e.Finished())
    {
      finished := sprites[id].explosion.Update(dt);
      poses := poses[id := PoseOf(sprites[id])];
      Retracked(id);
    }

    /** Stars.update inside all_sprites.update: nothing changes. */
    method UpdateStar(id: nat, dt: real)
      requires Valid() && Owned() && Tracked() && id in sprites && sprites[id].StarSprite?
      modifies this`poses
      ensures Valid() && Owned() && Tracked()
      ensures OneStep(old(State()), State(), id, dt, rotated)
      ensures unchanged(ship`rect, ship`direction, ship`shoot, ship`shootTime)
    {
      sprites[id].star.Update(dt);
      ghost var v0 := State();
      poses := poses[id := Still];
      InPlaceStep(v0, State(), State(), id, false, dt, rotated);
    }

    /** sprite.update(dt) of one registered sprite, by its kind. */
    method UpdateOne(id: nat, dt: real, now: int, keys: Keys, shootJustPressed: bool)
      requires Valid() && Owned() && Tracked() && id in sprites && diag > 0.0
      modifies this`sprites, this`nextId, this`idOf, this`poses,
               assets`allSprites, assets`meteorSprites, assets`laserSprites,
               ship`meteorsDestroyed, sprites[id].Body()
      ensures Valid() && Owned() && Tracked()
      ensures OneStep(old(State()), State(), id, dt, rotated)
      ensures old(sprites[id]).ShipSprite? ==> ship.Stepped(dt, keys, shootJustPressed, now, diag)
      ensures !old(sprites[id]).ShipSprite? ==> unchanged(ship`rect, ship`direction, ship`shoot, ship`shootTime)
    {
      match sprites[id]
      case ShipSprite(_) =>
        var _ := UpdateShip(dt, now, keys, shootJustPressed);
      case LaserSprite(_) =>
        var _, _, _ := UpdateLaser(id, dt);
      case MeteorSprite(_) =>
        UpdateMeteor(id, dt);
      case ExplosionSprite(_) =>
        UpdateExplosion(id, dt);
      case StarSprite(_) =>
        UpdateStar(id, dt);
    }

    /** The tracked poses are set to the sprites' own poses. */
    ghost method Retrack()
      requires Valid() && Owned()
      modifies this`poses
      ensures Valid() && Owned() && Tracked()
      ensures State() == old(Snapshot())
    {
      poses := PosesOf(sprites);
    }

    /** One turn of all_sprites.update: the pending sprite id is updated, which moves the
        update from one stage to the next. */
    method UpdatePending(ghost v0: View, ghost pending: set<nat>, ghost seen: set<nat>, id: nat,
                         dt: real, now: int, keys: Keys, shootJustPressed: bool)
      requires Valid() && Owned() && Tracked() && id in sprites && diag > 0.0
      requires Progress(v0, State(), pending, seen, dt, rotated) && id in pending
      requires forall k :: k in v0.sprites ==> k < v0.nextId
      modifies this`sprites, this`nextId, this`idOf, this`poses,
               assets`allSprites, assets`meteorSprites, assets`laserSprites,
               ship`meteorsDestroyed, sprites[id].Body()
      ensures Valid() && Owned() && Tracked()
      ensures Progress(v0, State(), pending - {id}, if v0.sprites[id].LaserSprite? then seen + {id} else seen, dt, rotated)
      ensures old(sprites[id]).ShipSprite? ==> ship.Stepped(dt, keys, shootJustPressed, now, diag)
      ensures !old(sprites[id]).ShipSprite? ==> unchanged(ship`rect, ship`direction, ship`shoot, ship`shootTime)
    {
      ghost var v := State();
      UpdateOne(id, dt, now, keys, shootJustPressed);
      ProgressStep(v0, v, State(), pending, seen, id, dt, rotated);
    }

    /** all_sprites.update(dt): every sprite in all_sprites when the call starts is updated
        once, in order, even if an earlier update killed it; sprites created during the call
        are not updated. Each of them changed as its own update does, and each that asked to
        be killed is out of every group. The score rises by at most one per laser updated. */
    method UpdateSprites(dt: real, now: int, keys: Keys, shootJustPressed: bool)
      requires Valid() && Owned() && diag > 0.0
      modifies this`sprites, this`nextId, this`idOf, this`poses,
               assets`allSprites, assets`meteorSprites, assets`laserSprites, ship, Bodies()
      ensures Valid() && Owned() && Tracked()
      ensures ship.Stepped(dt, keys, shootJustPressed, now, diag)
      ensures Updated(old(Snapshot()), State(), dt, rotated)
    {
      Retrack();
      UpdateEach(dt, now, keys, shootJustPressed);
    }

    /** The loop of all_sprites.update, from tracked poses. */
    method UpdateEach(dt: real, now: int, keys: Keys, shootJustPressed: bool)
      requires Valid() && Owned() && Tracked() && diag > 0.0
      modifies this`sprites, this`nextId, this`idOf, this`poses,
               assets`allSprites, assets`meteorSprites, assets`laserSprites, ship, Bodies()
      ensures Valid() && Owned() && Tracked()
      ensures ship.Stepped(dt, keys, shootJustPressed, now, diag)
      ensures Updated(old(State()), State(), dt, rotated)
    {
      var pending := assets.allSprites;
      ghost var seen: set<nat> := {};
      ghost var v0 := State();
      while pending != {}
        invariant Valid() && Owned() && Tracked()
        invariant ship == old(ship) && shipId == old(shipId)
        invariant Progress(v0, State(), pending, seen, dt, rotated)
        invariant shipId in pending ==> unchanged(ship`rect, ship`direction, ship`shoot, ship`shootTime)
        invariant shipId !in pending ==> ship.Stepped(dt, keys, shootJustPressed, now, diag)
        decreases |pending|
      {
        var id := First(pending);
        assert sprites[id] == old(sprites)[id];
        assert sprites[id].Body() in old(Bodies());
        UpdatePending(v0, pending, seen, id, dt, now, keys, shootJustPressed);
        if v0.sprites[id].LaserSprite? {
          seen := seen + {id};
        }
        pending := pending - {id};
      }
      UpdatedAtEnd(v0, State(), seen, dt, rotated);
    }

    /** spritecollide(ship, meteor_sprites, True, collide_mask): exactly the meteors
        overlapping the ship are killed; the ship itself never is. The damage cue plays iff
        one was killed. */
    method ShipCollisions() returns (damage: bool, ghost alive: set<nat>, ghost hits: set<nat>)
      requires Valid() && Owned() && Tracked()
      modifies assets`allSprites, assets`meteorSprites
      ensures Valid() && Owned() && Tracked()
      ensures alive == old(assets.meteorSprites) && forall m :: m in alive ==> IsMeteor(m)
      ensures hits == set m | m in alive && IsMeteor(m) && shipHit(ship.rect, sprites[m].meteor.rect)
      ensures MeteorsLose(old(State()), State(), hits)
      ensures unchanged(ship`rect, ship`direction, ship`shoot, ship`shootTime)
      ensures assets.meteorSprites == alive - hits
      ensures damage <==> hits != {}
      ensures ShipHits() == {}
    {
      var hit := ShipHits();
      alive, hits := assets.meteorSprites, hit;
      assets.allSprites := assets.allSprites - hit;
      assets.meteorSprites := assets.meteorSprites - hit;
      damage := hit != {};
    }

    /** update(): all sprites' updates, then the ship/meteor collisions. Returns whether the
        damage sound plays; `mid` is the world after the sprite updates, `alive` its meteor
        group and `hits` the meteors spritecollide killed. */
    method Update(dt: real, now: int, keys: Keys, shootJustPressed: bool)
      returns (damage: bool, ghost mid: View, ghost alive: set<nat>, ghost hits: set<nat>)
      requires Valid() && Owned() && diag > 0.0
      modifies this`sprites, this`nextId, this`idOf, this`poses,
               assets`allSprites, assets`meteorSprites, assets`laserSprites, ship, Bodies()
      ensures Valid() && Owned() && Tracked()
      ensures ship.Stepped(dt, keys, shootJustPressed, now, diag)
      ensures Updated(old(Snapshot()), mid, dt, rotated) && MeteorsLose(mid, State(), hits)
      ensures old(ship.meteorsDestroyed) <= ship.meteorsDestroyed
      ensures alive == mid.meteors
      ensures forall k :: k in alive <==> k in mid.all && k in mid.sprites && mid.sprites[k].MeteorSprite?
      ensures forall m :: m in alive ==> IsMeteor(m)
      ensures hits == set m | m in alive && IsMeteor(m) && shipHit(ship.rect, sprites[m].meteor.rect)
      ensures assets.meteorSprites == alive - hits
      ensures damage <==> hits != {}
      ensures ShipHits() == {}
    {
      UpdateSprites(dt, now, keys, shootJustPressed);
      mid := State();
      damage, alive, hits := ShipCollisions();
    }

    /** What draw() writes as the score: the ship's meteors_destroyed. */
    function Score(): int
      reads this, ship
    {
      ship.meteorsDestroyed
    }

    /** inputs(): a just-pressed K_0 switches the video settings to 720x480 without vsync and
        rebuilds the world; then a just-pressed K_1 does the same for 1280x720. */
    method Inputs(k0: bool, k1: bool, starsAfterK0: seq<(int, int)>, starsAfterK1: seq<(int, int)>)
      requires Valid() && (k0 ==> StarDraws(starsAfterK0)) && (k1 ==> StarDraws(starsAfterK1))
      modifies this`video, this`ship, this`shipId, this`sprites, this`nextId, this`idOf, this`meteorEvent, this`eventTypes,
               assets`allSprites, assets`meteorSprites, assets`laserSprites
      ensures Valid() && (old(Owned()) ==> Owned())
      ensures running == old(running)
      ensures video == if k1 then (1280, 720, 0) else if k0 then (720, 480, 0) else old(video)
      ensures eventTypes == old(eventTypes) + (if k0 then 1 else 0) + (if k1 then 1 else 0)
      ensures !k0 && !k1 ==> ship == old(ship) && nextId == old(nextId) && sprites == old(sprites)
                             && assets.allSprites == old(assets.allSprites)
      ensures k0 || k1 ==> fresh(ship) && ship.meteorsDestroyed == 0
                           && shipId == nextId - 1 && Spans(sprites, nextId - 21, nextId)
                           && assets.allSprites == sprites.Keys
                           && assets.meteorSprites == {} && assets.laserSprites == {}
    {
      if k0 {
        video := (720, 480, 0);
        NewScreen(starsAfterK0);
      }
      if k1 {
        video := (1280, 720, 0);
        NewScreen(starsAfterK1);
      }
    }

    /** update() and then draw() as far as the model goes: draw writes the ship's score, which
        never drops during update(); the ship stays the same object. */
    method UpdateThenDraw(dt: real, now: int, keys: Keys, shootJustPressed: bool) returns (drawnScore: int)
      requires Valid() && Owned() && diag > 0.0
      modifies this`sprites, this`nextId, this`idOf, this`poses, assets`allSprites, assets`meteorSprites,
               assets`laserSprites, ship, Bodies()
      ensures Valid() && Owned()
      ensures ship == old(ship) && drawnScore == Score() && old(ship.meteorsDestroyed) <= drawnScore
      ensures running == old(running)
    {
      assert this !in Bodies();
      var _, _, _, _ := Update(dt, now, keys, shootJustPressed);
      drawnScore := Score();
    }

    /** run(): events, update, draw, inputs, in that order. Returns the score drawn; it is
        drawn before a reset, so it is never below the score at the start of the frame. */
    method Run(f: Frame) returns (drawnScore: int)
      requires Valid() && Owned() && ValidFrame(f) && diag > 0.0
      modifies this, assets, Bodies()
      ensures Valid() && Owned()
      ensures running == (old(running) && Quit !in f.events)
      ensures drawnScore >= old(ship.meteorsDestroyed)
      ensures !f.k0JustPressed && !f.k1JustPressed ==> ship == old(ship) && Score() == drawnScore
      ensures f.k0JustPressed || f.k1JustPressed ==>
                fresh(ship) && Score() == 0 && shipId == nextId - 1 && Spans(sprites, nextId - 21, nextId)
                && assets.meteorSprites == {} && assets.laserSprites == {}
    {
      assert sprites[shipId].Body() == ship;
      Events(f.events, f.now);
      drawnScore := UpdateThenDraw(f.dt, f.now, f.keys, f.shootJustPressed);
      Inputs(f.k0JustPressed, f.k1JustPressed, f.starsAfterK0, f.starsAfterK1);
    }
  }

  lemma {:induction false} SubsetSize(a: set<nat>, b: set<nat>)
    requires a <= b
    ensures |a| <= |b|
    decreases |b|
  {
    if b != {} {
      var x :| x in b;
      SubsetSize(a - {x}, b - {x});
    }
  }
}
