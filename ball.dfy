/** The ball entity: its type, lifecycle state and physical property, the
    position updates that move it, and the short trail of recent positions
    drawn behind it. */
module Balls {
  import opened Geometry
  import opened CircularQueues

  /** An entity handle of the game world. */
  type Entity = nat

  /** Number of trail points kept. */
  const TAILING_SIZE: nat := 5
  /** Number of recorded positions skipped between two trail points. */
  const TAILING_WINDOW: nat := 3

  /** User data of the tween-completed event sent when a ball's starting
      animation ends, and when its ending animation ends. */
  const STARTING_DONE_EVENT: nat := 0
  const ENDING_DONE_EVENT: nat := 1

  /** `Bullet` is the player's stone; the interaction code calls it `Stone`. */
  datatype BallType = Bullet | Goal | Bomb

  datatype BallState = Created | Starting | Running | Paused | Ending | Dead

  datatype BallMovementType = Movable | Fixed | FixedReversed

  datatype BallProperty = BallProperty(radius: real, pos: Vec2, v: Vec2, movementType: BallMovementType)

  datatype BallAnimeParams = BallAnimeParams(radius: real, alpha: real)

  /** Theme colours a ball is drawn in. */
  datatype Color = FgColor | SuccessColor | FailureColor

  /** The per-type behaviour object (`bullet::Ability`, `goal::Ability`,
      `bomb::Ability`), reduced to what it reports: its type and colour. */
  datatype Ability = BulletAbility | GoalAbility | BombAbility {
    function AbilityType(): BallType {
      match this
      case BulletAbility => Bullet
      case GoalAbility => Goal
      case BombAbility => Bomb
    }

    function AbilityColor(): Color {
      match this
      case BulletAbility => FgColor
      case GoalAbility => SuccessColor
      case BombAbility => FailureColor
    }
  }

  function BuildAbility(t: BallType): (a: Ability)
    ensures a.AbilityType() == t
  {
    match t
    case Bullet => BulletAbility
    case Goal => GoalAbility
    case Bomb => BombAbility
  }

  /** The positions of `s` that enter the trail: every
      `TAILING_WINDOW + 1`-th one, starting with the first. */
  function Sampled(s: seq<Vec2>): seq<Vec2> {
    if s == [] then []
    else Sampled(s[..|s| - 1]) + (if (|s| - 1) % (TAILING_WINDOW + 1) == 0 then [s[|s| - 1]] else [])
  }

  /** The 1st, 5th, 9th, ... recorded positions, and only they, are sampled. */
  lemma {:induction false} SampledAt(s: seq<Vec2>)
    ensures |Sampled(s)| == (|s| + TAILING_WINDOW) / (TAILING_WINDOW + 1)
    ensures forall k :: 0 <= k < |Sampled(s)| ==> Sampled(s)[k] == s[(TAILING_WINDOW + 1) * k]
  {
    if s != [] {
      var n := |s| - 1;
      var t := s[..n];
      SampledAt(t);
      SampleCountStep(n);
      var last := if n % (TAILING_WINDOW + 1) == 0 then [s[n]] else [];
      assert Sampled(s) == Sampled(t) + last;
      forall k | 0 <= k < |Sampled(s)|
        ensures Sampled(s)[k] == s[(TAILING_WINDOW + 1) * k]
      {
        if k < |Sampled(t)| {
          assert Sampled(s)[k] == Sampled(t)[k];
        } else {
          assert Sampled(s)[k] == s[n];
        }
      }
    }
  }

  /** One more position adds a sample exactly when its index is a multiple
      of the window, and that sample's index is then the next multiple. */
  lemma SampleCountStep(n: nat)
    ensures (n + TAILING_WINDOW) / (TAILING_WINDOW + 1) + (if n % (TAILING_WINDOW + 1) == 0 then 1 else 0)
      == (n + 1 + TAILING_WINDOW) / (TAILING_WINDOW + 1)
    ensures n % (TAILING_WINDOW + 1) == 0 ==> (TAILING_WINDOW + 1) * ((n + TAILING_WINDOW) / (TAILING_WINDOW + 1)) == n
  {
  }

  /** The countdown value `record_tailing` holds after `n` recorded positions. */
  function CounterAfter(n: nat): nat {
    (TAILING_WINDOW + 1 - n % (TAILING_WINDOW + 1)) % (TAILING_WINDOW + 1)
  }

  lemma SampledStep(s: seq<Vec2>, p: Vec2)
    ensures Sampled(s + [p]) == Sampled(s) + (if |s| % (TAILING_WINDOW + 1) == 0 then [p] else [])
  {
    assert (s + [p])[..|s|] == s;
  }

  /** The countdown is 0 exactly when the next position is sampled, and
      otherwise counts down. */
  lemma CounterStep(n: nat)
    ensures CounterAfter(n) == 0 <==> n % (TAILING_WINDOW + 1) == 0
    ensures CounterAfter(n + 1) == if CounterAfter(n) == 0 then TAILING_WINDOW else CounterAfter(n) - 1
  {
  }

  class Ball {
    var state: BallState
    var property: BallProperty
    var animeParams: BallAnimeParams
    const ability: Ability
    const tailings: CircularQueue<Vec2>
    var tailingCounter: nat
    const rootEntity: Entity
    const canvasEntity: Entity
    /** Every position handed to `record_tailing`, oldest first. */
    ghost var Recorded: seq<Vec2>

    ghost function Repr(): set<object> {
      {this, tailings, tailings.data}
    }

    /** The trail holds the last `TAILING_SIZE` sampled positions, and the
        countdown says how many more positions are skipped. */
    ghost predicate Valid()
      reads this, tailings, tailings.data
    {
      && tailings.Valid()
      && tailings.capacity == TAILING_SIZE
      && tailingCounter == CounterAfter(|Recorded|)
      && tailings.Contents == LastN(Sampled(Recorded), TAILING_SIZE)
    }

    ghost function Tailings(): seq<Vec2>
      reads this, tailings
    {
      tailings.Contents
    }

    constructor (ballType: BallType, property: BallProperty, rootEntity: Entity, canvasEntity: Entity)
      ensures Valid() && fresh(tailings) && fresh(tailings.data)
      ensures state == Created && this.property == property
      ensures animeParams == BallAnimeParams(0.0, 0.0)
      ensures BallTypeOf() == ballType
      ensures tailingCounter == 0 && Tailings() == [] && tailings.capacity == TAILING_SIZE
      ensures this.rootEntity == rootEntity && this.canvasEntity == canvasEntity
      ensures Recorded == []
    {
      ability := BuildAbility(ballType);
      this.property := property;
      animeParams := BallAnimeParams(0.0, 0.0);
      state := Created;
      tailings := new CircularQueue<Vec2>.WithCapacity(TAILING_SIZE);
      tailingCounter := 0;
      this.rootEntity := rootEntity;
      this.canvasEntity := canvasEntity;
      Recorded := [];
    }

    /** The type the ball reports; its ability is the one built for it. */
    function BallTypeOf(): (t: BallType)
      ensures BuildAbility(t) == ability
    {
      ability.AbilityType()
    }

    function ColorOf(): Color {
      ability.AbilityColor()
    }

    method UpdatePos(pos: Vec2)
      requires Valid()
      modifies this, tailings, tailings.data
      ensures animeParams == old(animeParams)
      ensures Valid()
      ensures property == old(property).(pos := pos) && state == old(state)
      ensures Recorded == old(Recorded) + [pos]
    {
      property := property.(pos := pos);
      RecordTailing(property.pos);
    }

    method UpdateV(v: Vec2)
      modifies this
      ensures animeParams == old(animeParams)
      ensures old(Valid()) ==> Valid()
      ensures property == old(property).(v := v)
      ensures state == old(state) && tailingCounter == old(tailingCounter) && Recorded == old(Recorded)
    {
      property := property.(v := v);
    }

    /** Moves a movable ball by its velocity; fixed balls stay put. */
    method Travel() returns (pos: Vec2)
      requires Valid()
      modifies this, tailings, tailings.data
      ensures animeParams == old(animeParams)
      ensures Valid() && state == old(state)
      ensures property.v == old(property.v) && property.radius == old(property.radius)
      ensures property.movementType == old(property.movementType)
      ensures property.pos == TravelledPos(old(property))
      ensures pos == property.pos
      ensures Recorded == if old(property.movementType) == Movable then old(Recorded) + [pos] else old(Recorded)
    {
      if property.movementType == Movable {
        UpdatePos(Add(property.pos, property.v));
      }
      pos := property.pos;
    }

    method Jump(pos: Vec2)
      requires Valid()
      modifies this, tailings, tailings.data
      ensures animeParams == old(animeParams)
      ensures Valid()
      ensures property == old(property).(pos := pos) && state == old(state)
      ensures Recorded == old(Recorded) + [pos]
    {
      property := property.(pos := pos);
      RecordTailing(property.pos);
    }

    method RecordTailing(pos: Vec2)
      requires Valid()
      modifies this, tailings, tailings.data
      ensures animeParams == old(animeParams)
      ensures Valid()
      ensures property == old(property) && state == old(state)
      ensures Recorded == old(Recorded) + [pos]
      ensures Tailings() == if old(tailingCounter) == 0
                            then LastN(old(Tailings()) + [pos], TAILING_SIZE)
                            else old(Tailings())
      ensures tailingCounter == if old(tailingCounter) == 0 then TAILING_WINDOW else old(tailingCounter) - 1
    {
      CounterStep(|Recorded|);
      SampledStep(Recorded, pos);
      Recorded := Recorded + [pos];
      if tailingCounter == 0 {
        assert Sampled(Recorded) == Sampled(old(Recorded)) + [pos];
        tailings.Push(pos);
        tailingCounter := TAILING_WINDOW;
        LastNAppend(Sampled(old(Recorded)), pos, TAILING_SIZE);
        assert tailings.Contents == LastN(Sampled(Recorded), TAILING_SIZE);
      } else {
        assert Sampled(Recorded) == Sampled(old(Recorded));
        tailingCounter := tailingCounter - 1;
      }
      assert tailingCounter == CounterAfter(|Recorded|);
    }

    method TriggerAnime(s: BallState)
      modifies this
      ensures animeParams == old(animeParams)
      ensures old(Valid()) ==> Valid()
      ensures state == s
      ensures property == old(property) && tailingCounter == old(tailingCounter) && Recorded == old(Recorded)
    {
      state := s;
    }

    /** Starts the entry animation (its drawing is left out) and enters `Starting`. */
    method TriggerStarting()
      modifies this
      ensures animeParams == old(animeParams)
      ensures old(Valid()) ==> Valid()
      ensures state == Starting
      ensures property == old(property) && tailingCounter == old(tailingCounter) && Recorded == old(Recorded)
    {
      TriggerAnime(Starting);
    }

    /** Starts the exit animation (its drawing is left out) and enters `Ending`. */
    method TriggerEnding()
      modifies this
      ensures animeParams == old(animeParams)
      ensures old(Valid()) ==> Valid()
      ensures state == Ending
      ensures property == old(property) && tailingCounter == old(tailingCounter) && Recorded == old(Recorded)
    {
      TriggerAnime(Ending);
    }
  }

  /** Where `travel` leaves a ball: one step along its velocity if it is
      movable, where it was otherwise. */
  function TravelledPos(p: BallProperty): (pos: Vec2)
    ensures p.movementType == Movable ==> pos == Add(p.pos, p.v)
    ensures p.movementType != Movable ==> pos == p.pos
  {
    if p.movementType == Movable then Add(p.pos, p.v) else p.pos
  }
}
