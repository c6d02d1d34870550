/** The preparing phase: entering it lays out the nine demonstration balls,
    and every tick of its refresh timer advances the balls and reacts to the
    animations that completed since the last tick. */
module Preparing {
  import opened Geometry
  import opened Balls
  import opened KeyBinding

  // ---------------------------------------------------------------------
  // Entering the phase

  /** A ball the phase spawns: its type and its physical property. */
  datatype Seed = Seed(ballType: BallType, property: BallProperty)

  const SEED_RADIUS: real := 24.0

  function SeedAt(ballType: BallType, x: real, y: real, movementType: BallMovementType): Seed {
    Seed(ballType, BallProperty(SEED_RADIUS, Vec2(x, y), Zero, movementType))
  }

  /** The layout `state_enter` spawns, in its order: one row per movement
      kind, one column per ball type, 100 apart. */
  function SeedLayout(): (seeds: seq<Seed>)
    ensures |seeds| == 9
  {
    [ SeedAt(Bullet, 0.0, 0.0, Movable), SeedAt(Bomb, 100.0, 0.0, Movable), SeedAt(Goal, 200.0, 0.0, Movable),
      SeedAt(Bullet, 0.0, 100.0, Fixed), SeedAt(Bomb, 100.0, 100.0, Fixed), SeedAt(Goal, 200.0, 100.0, Fixed),
      SeedAt(Bullet, 0.0, 200.0, FixedReversed), SeedAt(Bomb, 100.0, 200.0, FixedReversed), SeedAt(Goal, 200.0, 200.0, FixedReversed) ]
  }

  function Column(t: BallType): nat {
    match t
    case Bullet => 0
    case Bomb => 1
    case Goal => 2
  }

  function Row(m: BallMovementType): nat {
    match m
    case Movable => 0
    case Fixed => 1
    case FixedReversed => 2
  }

  /** Every seed is a resting ball of radius 24, and each combination of
      type and movement kind is seeded exactly once, at column `100 * type`
      and row `100 * kind`. */
  lemma SeedLayoutCoversEveryKind()
    ensures forall k :: 0 <= k < 9 ==>
      SeedLayout()[k].property.radius == SEED_RADIUS && SeedLayout()[k].property.v == Zero
    ensures forall t: BallType, m: BallMovementType ::
      var k := 3 * Row(m) + Column(t);
      SeedLayout()[k].ballType == t && SeedLayout()[k].property.movementType == m
      && SeedLayout()[k].property.pos == Vec2(100.0 * Column(t) as real, 100.0 * Row(m) as real)
    ensures forall k :: 0 <= k < 9 ==>
      k == 3 * Row(SeedLayout()[k].property.movementType) + Column(SeedLayout()[k].ballType)
  {
  }

  /** Entering the phase switches the keyboard to the gaming bindings and
      spawns the seed layout. */
  method StateEnter(keyBinding: KeyBindingConfig) returns (seeds: seq<Seed>)
    modifies keyBinding
    ensures keyBinding.mode == Gaming
    ensures seeds == SeedLayout()
  {
    keyBinding.mode := Gaming;
    seeds := [];
    seeds := seeds + [SeedAt(Bullet, 0.0, 0.0, Movable)];
    seeds := seeds + [SeedAt(Bomb, 100.0, 0.0, Movable)];
    seeds := seeds + [SeedAt(Goal, 200.0, 0.0, Movable)];
    seeds := seeds + [SeedAt(Bullet, 0.0, 100.0, Fixed)];
    seeds := seeds + [SeedAt(Bomb, 100.0, 100.0, Fixed)];
    seeds := seeds + [SeedAt(Goal, 200.0, 100.0, Fixed)];
    seeds := seeds + [SeedAt(Bullet, 0.0, 200.0, FixedReversed)];
    seeds := seeds + [SeedAt(Bomb, 100.0, 200.0, FixedReversed)];
    seeds := seeds + [SeedAt(Goal, 200.0, 200.0, FixedReversed)];
  }

  // ---------------------------------------------------------------------
  // One tick

  /** A completed tween: the entity it animated and its user data. */
  datatype TweenCompleted = TweenCompleted(entity: Entity, userData: nat)

  /** Some completion event of the tick ends the entry animation of `e`. */
  predicate StartedBy(events: seq<TweenCompleted>, e: Entity) {
    exists k :: 0 <= k < |events| && events[k].userData == STARTING_DONE_EVENT && events[k].entity == e
  }

  predicate Expires(event: TweenCompleted, animeEffectDone: nat) {
    event.userData == ENDING_DONE_EVENT || event.userData == animeEffectDone
  }

  /** The entities whose exit animation, or whose effect animation, ended
      during the tick. */
  function ToDespawn(events: seq<TweenCompleted>, animeEffectDone: nat): set<Entity> {
    set k | 0 <= k < |events| && Expires(events[k], animeEffectDone) :: events[k].entity
  }

  /** A ball's state after the ball pass alone: a created ball starts. */
  function Promoted(s: BallState): BallState {
    if s == Created then Starting else s
  }

  /** A ball's state after the tick: the completion of its entry animation
      makes it run, otherwise the ball pass decides. */
  function StateAfterTick(s: BallState, started: bool): (r: BallState)
    ensures started ==> r == Running
    ensures !started && s == Created ==> r == Starting
    ensures !started && s != Created ==> r == s
  {
    if started then Running else Promoted(s)
  }

  /** A ball's property after the tick: only a ball running when the tick
      began travels. */
  function PropertyAfterTick(s: BallState, p: BallProperty): (r: BallProperty)
    ensures r.v == p.v && r.radius == p.radius && r.movementType == p.movementType
    ensures s != Running ==> r == p
    ensures s == Running && p.movementType == Movable ==> r.pos == Add(p.pos, p.v)
    ensures p.movementType != Movable ==> r == p
  {
    if s == Running then p.(pos := TravelledPos(p)) else p
  }

  /** The positions the tick records into a ball's trail. */
  function RecordedByTick(s: BallState, p: BallProperty): seq<Vec2> {
    if s == Running && p.movementType == Movable then [TravelledPos(p)] else []
  }

  /** Distinct balls whose footprints do not overlap. */
  ghost predicate Separate(balls: seq<Ball>) {
    forall i, j :: 0 <= i < |balls| && 0 <= j < |balls| && i != j ==> balls[i].Repr() !! balls[j].Repr()
  }

  ghost predicate AllValid(balls: seq<Ball>)
    reads set b | b in balls, set b | b in balls :: b.tailings, set b | b in balls :: b.tailings.data
  {
    forall k :: 0 <= k < |balls| ==> balls[k].Valid()
  }

  function Elements(s: seq<Entity>): set<Entity> {
    set x | x in s
  }

  predicate AllDistinct(s: seq<Entity>) {
    forall a, b :: 0 <= a < b < |s| ==> s[a] != s[b]
  }

  /** The body of the ball pass for one ball: a created ball starts its
      entry animation and is done for this tick, a running ball travels. */
  method Advance(b: Ball)
    requires b.Valid()
    modifies b, b.tailings, b.tailings.data
    ensures b.Valid()
    ensures b.state == Promoted(old(b.state))
    ensures b.property == PropertyAfterTick(old(b.state), old(b.property))
    ensures b.animeParams == old(b.animeParams) && b.Recorded == old(b.Recorded) + RecordedByTick(old(b.state), old(b.property))
  {
    if b.state == Created {
      b.TriggerStarting();
      return;
    }
    if b.state == Running {
      var _ := b.Travel();
    }
  }

  /** One frame of the phase. Nothing happens unless the refresh timer
      fired. Then every ball is advanced, the completion events are drained
      (an ended entry animation makes its ball run; an ended exit or effect
      animation marks its entity), and at last every marked entity that
      still exists is despawned, once. */
  method StateUpdate(balls: seq<Ball>, timerFinished: bool, events: seq<TweenCompleted>,
                     animeEffectDone: nat, world: set<Entity>)
      returns (despawned: seq<Entity>)
    requires Separate(balls) && AllValid(balls)
    modifies set b | b in balls, set b | b in balls :: b.tailings, set b | b in balls :: b.tailings.data
    ensures AllValid(balls)
    ensures !timerFinished ==> despawned == [] && forall k :: 0 <= k < |balls| ==>
      balls[k].state == old(balls[k].state) && balls[k].property == old(balls[k].property)
      && balls[k].animeParams == old(balls[k].animeParams) && balls[k].Recorded == old(balls[k].Recorded)
    ensures timerFinished ==> forall k :: 0 <= k < |balls| ==>
      && balls[k].state == StateAfterTick(old(balls[k].state), StartedBy(events, balls[k].rootEntity))
      && balls[k].property == PropertyAfterTick(old(balls[k].state), old(balls[k].property))
      && balls[k].animeParams == old(balls[k].animeParams) && balls[k].Recorded == old(balls[k].Recorded) + RecordedByTick(old(balls[k].state), old(balls[k].property))
    ensures timerFinished ==> AllDistinct(despawned)
    ensures timerFinished ==> Elements(despawned) == ToDespawn(events, animeEffectDone) * world
  {
    despawned := [];
    if !timerFinished {
      return;
    }
    BallPass(balls);
    var toDespawn := DrainEvents(balls, events, animeEffectDone);
    despawned := Despawn(toDespawn, world);
  }

  /** Advances every ball, in order. */
  method BallPass(balls: seq<Ball>)
    requires Separate(balls) && AllValid(balls)
    modifies set b | b in balls, set b | b in balls :: b.tailings, set b | b in balls :: b.tailings.data
    ensures AllValid(balls)
    ensures forall k :: 0 <= k < |balls| ==>
      && balls[k].state == Promoted(old(balls[k].state))
      && balls[k].property == PropertyAfterTick(old(balls[k].state), old(balls[k].property))
      && balls[k].animeParams == old(balls[k].animeParams) && balls[k].Recorded == old(balls[k].Recorded) + RecordedByTick(old(balls[k].state), old(balls[k].property))
  {
    for i := 0 to |balls|
      invariant AllValid(balls)
      invariant forall k :: 0 <= k < i ==>
        && balls[k].state == Promoted(old(balls[k].state))
        && balls[k].property == PropertyAfterTick(old(balls[k].state), old(balls[k].property))
        && balls[k].animeParams == old(balls[k].animeParams) && balls[k].Recorded == old(balls[k].Recorded) + RecordedByTick(old(balls[k].state), old(balls[k].property))
      invariant forall k :: i <= k < |balls| ==>
        balls[k].state == old(balls[k].state) && balls[k].property == old(balls[k].property)
        && balls[k].animeParams == old(balls[k].animeParams) && balls[k].Recorded == old(balls[k].Recorded)
    {
      AdvanceOne(balls, i);
    }
  }

  /** Reads the completion events in order; returns the entities to
      despawn. */
  method DrainEvents(balls: seq<Ball>, events: seq<TweenCompleted>, animeEffectDone: nat)
      returns (toDespawn: set<Entity>)
    requires Separate(balls) && AllValid(balls)
    modifies set b | b in balls
    ensures AllValid(balls)
    ensures forall k :: 0 <= k < |balls| ==>
      && balls[k].state == (if StartedBy(events, balls[k].rootEntity) then Running else old(balls[k].state))
      && balls[k].property == old(balls[k].property) && balls[k].animeParams == old(balls[k].animeParams) && balls[k].Recorded == old(balls[k].Recorded)
    ensures toDespawn == ToDespawn(events, animeEffectDone)
  {
    toDespawn := {};
    for n := 0 to |events|
      invariant AllValid(balls)
      invariant forall k :: 0 <= k < |balls| ==>
        && balls[k].state == (if StartedBy(events[..n], balls[k].rootEntity) then Running else old(balls[k].state))
        && balls[k].property == old(balls[k].property) && balls[k].animeParams == old(balls[k].animeParams) && balls[k].Recorded == old(balls[k].Recorded)
      invariant toDespawn == ToDespawn(events[..n], animeEffectDone)
    {
      var event := events[n];
      StartedByStep(events, n);
      if event.userData == STARTING_DONE_EVENT {
        StartEntity(balls, event.entity);
      }
      if event.userData == ENDING_DONE_EVENT || event.userData == animeEffectDone {
        toDespawn := toDespawn + {event.entity};
      }
      ToDespawnStep(events, n, animeEffectDone);
    }
    assert events[..|events|] == events;
  }

  /** Every ball of entity `e` runs; the others are left alone. */
  method StartEntity(balls: seq<Ball>, e: Entity)
    requires Separate(balls) && AllValid(balls)
    modifies set b | b in balls
    ensures AllValid(balls)
    ensures forall k :: 0 <= k < |balls| ==>
      && balls[k].state == (if balls[k].rootEntity == e then Running else old(balls[k].state))
      && balls[k].property == old(balls[k].property) && balls[k].animeParams == old(balls[k].animeParams) && balls[k].Recorded == old(balls[k].Recorded)
  {
    for j := 0 to |balls|
      invariant AllValid(balls)
      invariant forall k :: 0 <= k < |balls| ==>
        && balls[k].state == (if k < j && balls[k].rootEntity == e then Running else old(balls[k].state))
        && balls[k].property == old(balls[k].property) && balls[k].animeParams == old(balls[k].animeParams) && balls[k].Recorded == old(balls[k].Recorded)
    {
      if balls[j].rootEntity == e {
        StartOne(balls, j);
      }
    }
  }

  /** Issues one despawn per marked entity that still exists; the set is
      walked in no particular order. */
  method Despawn(toDespawn: set<Entity>, world: set<Entity>) returns (despawned: seq<Entity>)
    ensures AllDistinct(despawned)
    ensures Elements(despawned) == toDespawn * world
  {
    despawned := [];
    var rest := toDespawn;
    while rest != {}
      invariant rest <= toDespawn
      invariant AllDistinct(despawned)
      invariant Elements(despawned) == (toDespawn - rest) * world
      decreases |rest|
    {
      var e :| e in rest;
      assert e !in Elements(despawned);
      if e in world {
        assert Elements(despawned + [e]) == Elements(despawned) + {e};
        despawned := despawned + [e];
      }
      rest := rest - {e};
    }
  }

  /** `Advance` on the `i`-th ball, leaving the others alone. */
  method AdvanceOne(balls: seq<Ball>, i: nat)
    requires i < |balls| && Separate(balls) && AllValid(balls)
    modifies balls[i], balls[i].tailings, balls[i].tailings.data
    ensures AllValid(balls)
    ensures balls[i].state == Promoted(old(balls[i].state))
    ensures balls[i].property == PropertyAfterTick(old(balls[i].state), old(balls[i].property))
    ensures balls[i].animeParams == old(balls[i].animeParams) && balls[i].Recorded == old(balls[i].Recorded) + RecordedByTick(old(balls[i].state), old(balls[i].property))
    ensures forall k :: 0 <= k < |balls| && k != i ==>
      balls[k].state == old(balls[k].state) && balls[k].property == old(balls[k].property)
      && balls[k].animeParams == old(balls[k].animeParams) && balls[k].Recorded == old(balls[k].Recorded)
  {
    Advance(balls[i]);
    forall k | 0 <= k < |balls| && k != i
      ensures balls[k].Valid()
    {
      assert balls[k].Repr() !! balls[i].Repr();
    }
  }

  /** The entry animation of the `j`-th ball ended: it runs. */
  method StartOne(balls: seq<Ball>, j: nat)
    requires j < |balls| && Separate(balls) && AllValid(balls)
    modifies balls[j]
    ensures AllValid(balls)
    ensures balls[j].state == Running
    ensures balls[j].property == old(balls[j].property) && balls[j].animeParams == old(balls[j].animeParams) && balls[j].Recorded == old(balls[j].Recorded)
    ensures forall k :: 0 <= k < |balls| && k != j ==>
      balls[k].state == old(balls[k].state) && balls[k].property == old(balls[k].property)
      && balls[k].animeParams == old(balls[k].animeParams) && balls[k].Recorded == old(balls[k].Recorded)
  {
    balls[j].TriggerAnime(Running);
    forall k | 0 <= k < |balls| && k != j
      ensures balls[k].Valid()
    {
      assert balls[k].Repr() !! balls[j].Repr();
    }
  }

  lemma StartedByStep(events: seq<TweenCompleted>, n: nat)
    requires n < |events|
    ensures forall e :: StartedBy(events[..n + 1], e) <==>
      StartedBy(events[..n], e) || (events[n].userData == STARTING_DONE_EVENT && events[n].entity == e)
  {
    forall e
      ensures StartedBy(events[..n + 1], e) <==>
        StartedBy(events[..n], e) || (events[n].userData == STARTING_DONE_EVENT && events[n].entity == e)
    {
      if StartedBy(events[..n + 1], e) {
        var k :| 0 <= k < n + 1 && events[..n + 1][k].userData == STARTING_DONE_EVENT && events[..n + 1][k].entity == e;
        if k < n {
          assert events[..n][k] == events[k];
        }
      }
      if StartedBy(events[..n], e) {
        var k :| 0 <= k < n && events[..n][k].userData == STARTING_DONE_EVENT && events[..n][k].entity == e;
        assert events[..n + 1][k] == events[k];
      }
      if events[n].userData == STARTING_DONE_EVENT && events[n].entity == e {
        assert events[..n + 1][n] == events[n];
      }
    }
  }

  lemma ToDespawnStep(events: seq<TweenCompleted>, n: nat, animeEffectDone: nat)
    requires n < |events|
    ensures ToDespawn(events[..n + 1], animeEffectDone) ==
      ToDespawn(events[..n], animeEffectDone) + (if Expires(events[n], animeEffectDone) then {events[n].entity} else {})
  {
    var prefix := events[..n + 1];
    assert prefix[..n] == events[..n];
    assert prefix[n] == events[n];
  }
}
