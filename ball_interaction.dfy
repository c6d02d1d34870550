/** Contact detection between balls, the per-ball list of hit actions built
    from the contacts of one tick, and the velocity a ball leaves a contact
    with. */
module BallInteraction {
  import opened Geometry
  import opened Balls

  datatype HitType = NoHit | Outside | Inside

  datatype HitMoveInfo = HitMoveInfo(hitType: HitType, opponentEntity: Entity, opponentProperty: BallProperty)

  datatype HitAction = Move(info: HitMoveInfo) | Success | Failure

  /** What a contact between two ball types amounts to. */
  datatype HitStatus = Hit | SuccessStatus | FailureStatus

  /** What `build_hit_map` reads of a ball: the query entity and the ball's
      state, type and physical property. */
  datatype BallSnapshot = BallSnapshot(entity: Entity, state: BallState, ballType: BallType, property: BallProperty)

  type HitMap = map<Entity, seq<HitAction>>

  function Abs(x: real): real {
    if x < 0.0 then -x else x
  }

  /** Classifies the contact of two balls. Ordinary balls touch from the
      outside when their distance is at most the sum of their radii; when
      either is a bowl (`FixedReversed`), the smaller one touches the bowl's
      inner wall once its distance exceeds the difference of the radii. */
  function DetectHit(p1: BallProperty, p2: BallProperty): (h: HitType)
    ensures p1.movementType != FixedReversed && p2.movementType != FixedReversed ==>
      h != Inside && (h == Outside <==> !FartherThan(DistanceSq(p1.pos, p2.pos), p1.radius + p2.radius))
    ensures p1.movementType == FixedReversed || p2.movementType == FixedReversed ==>
      h != Outside && (h == Inside <==> FartherThan(DistanceSq(p1.pos, p2.pos), Abs(p1.radius - p2.radius)))
  {
    var d := DistanceSq(p1.pos, p2.pos);
    if p1.movementType != FixedReversed && p2.movementType != FixedReversed then
      if FartherThan(d, p1.radius + p2.radius) then NoHit else Outside
    else if p1.radius >= p2.radius then
      if FartherThan(d, p1.radius - p2.radius) then Inside else NoHit
    else
      if FartherThan(d, p2.radius - p1.radius) then Inside else NoHit
  }

  /** Contact is a symmetric relation: the classification does not depend on
      which ball is taken first. */
  lemma DetectHitSymmetric(p1: BallProperty, p2: BallProperty)
    ensures DetectHit(p1, p2) == DetectHit(p2, p1)
  {
    DistanceSqSymmetric(p1.pos, p2.pos);
    assert p1.radius - p2.radius == -(p2.radius - p1.radius);
  }

  /** The outcome table of `record_hit_action`, as the source lists it. */
  function HitStatusOf(t1: BallType, t2: BallType): (r: HitStatus)
    ensures r == SuccessStatus <==> {t1, t2} == {Bullet, Goal}
    ensures r == FailureStatus <==> {t1, t2} == {Bullet, Bomb}
  {
    match t1
    case Bullet =>
      (match t2
       case Bullet => Hit
       case Goal => SuccessStatus
       case Bomb => FailureStatus)
    case Goal =>
      (match t2
       case Bullet => SuccessStatus
       case Goal => Hit
       case Bomb => Hit)
    case Bomb =>
      (match t2
       case Bullet => FailureStatus
       case Goal => Hit
       case Bomb => Hit)
  }

  /** The action a ball receives from one contact, stated on the unordered
      pair of types: the stone meeting the goal is a success for both, the
      stone meeting the bomb a failure for both, anything else moves the ball
      against its opponent. */
  function ActionFor(h: HitType, me: BallSnapshot, opponent: BallSnapshot): HitAction {
    var pair := {me.ballType, opponent.ballType};
    if pair == {Bullet, Goal} then Success
    else if pair == {Bullet, Bomb} then Failure
    else Move(HitMoveInfo(h, opponent.entity, opponent.property))
  }

  lemma HitStatusSymmetric(t1: BallType, t2: BallType)
    ensures HitStatusOf(t1, t2) == HitStatusOf(t2, t1)
  {
  }

  /** The list of actions recorded for `e`, empty when it has none. */
  function ActionsAt(m: HitMap, e: Entity): seq<HitAction> {
    if e in m then m[e] else []
  }

  function AppendAction(m: HitMap, e: Entity, a: HitAction): (r: HitMap)
    ensures r.Keys == m.Keys + {e}
    ensures ActionsAt(r, e) == ActionsAt(m, e) + [a]
    ensures forall x :: x != e ==> ActionsAt(r, x) == ActionsAt(m, x)
  {
    m[e := ActionsAt(m, e) + [a]]
  }

  /** Records one detected contact: each ball's list grows by the action the
      contact gives it; no earlier action is lost. */
  method RecordHitAction(hitMap: HitMap, h: HitType, b1: BallSnapshot, b2: BallSnapshot) returns (r: HitMap)
    ensures r == AppendAction(AppendAction(hitMap, b1.entity, ActionFor(h, b1, b2)), b2.entity, ActionFor(h, b2, b1))
  {
    var a1: HitAction, a2: HitAction;
    HitStatusSymmetric(b1.ballType, b2.ballType);
    match HitStatusOf(b1.ballType, b2.ballType) {
      case Hit =>
        a1 := Move(HitMoveInfo(h, b2.entity, b2.property));
        a2 := Move(HitMoveInfo(h, b1.entity, b1.property));
      case SuccessStatus =>
        a1, a2 := Success, Success;
      case FailureStatus =>
        a1, a2 := Failure, Failure;
    }
    assert {b2.ballType, b1.ballType} == {b1.ballType, b2.ballType};
    assert a1 == ActionFor(h, b1, b2) && a2 == ActionFor(h, b2, b1);
    r := PushAction(hitMap, b1.entity, a1);
    r := PushAction(r, b2.entity, a2);
  }

  /** Appends `a` to the list of `e`, creating the list when `e` has none. */
  method PushAction(hitMap: HitMap, e: Entity, a: HitAction) returns (r: HitMap)
    ensures r == AppendAction(hitMap, e, a)
  {
    if e in hitMap {
      r := hitMap[e := hitMap[e] + [a]];
    } else {
      assert [a] == ActionsAt(hitMap, e) + [a];
      r := hitMap[e := [a]];
    }
  }

  // ---------------------------------------------------------------------
  // The hit map of one tick

  function Snapshot(b: Ball): BallSnapshot
    reads b
  {
    BallSnapshot(b.rootEntity, b.state, b.BallTypeOf(), b.property)
  }

  function Snapshots(balls: seq<Ball>): (s: seq<BallSnapshot>)
    reads set b | b in balls
    ensures |s| == |balls|
    ensures forall k :: 0 <= k < |balls| ==> s[k] == Snapshot(balls[k])
  {
    if balls == [] then [] else Snapshots(balls[..|balls| - 1]) + [Snapshot(balls[|balls| - 1])]
  }

  /** A contact classifier; the game uses `DetectHit`. The enumeration below
      is stated for any classifier so that its bookkeeping can be reasoned
      about apart from the geometry. */
  type Classifier = (BallProperty, BallProperty) -> HitType

  /** Pair `(i, j)` of the enumeration: both running, `j > i`, in contact. */
  function PairStep(detect: Classifier, m: HitMap, s: seq<BallSnapshot>, i: nat, j: nat): HitMap
    requires i < |s| && j < |s|
  {
    if s[j].state == Running && j > i then
      var h := detect(s[i].property, s[j].property);
      if h != NoHit then
        AppendAction(AppendAction(m, s[i].entity, ActionFor(h, s[i], s[j])), s[j].entity, ActionFor(h, s[j], s[i]))
      else m
    else m
  }

  /** The inner loop of `build_hit_map` from `j` on. */
  function ProcessRow(detect: Classifier, m: HitMap, s: seq<BallSnapshot>, i: nat, j: nat): HitMap
    requires i < |s| && j <= |s|
    decreases |s| - j
  {
    if j == |s| then m else ProcessRow(detect, PairStep(detect, m, s, i, j), s, i, j + 1)
  }

  /** The outer loop of `build_hit_map` from `i` on. */
  function ProcessRows(detect: Classifier, m: HitMap, s: seq<BallSnapshot>, i: nat): HitMap
    requires i <= |s|
    decreases |s| - i
  {
    if i == |s| then m
    else ProcessRows(detect, if s[i].state == Running then ProcessRow(detect, m, s, i, 0) else m, s, i + 1)
  }

  function HitMapOf(s: seq<BallSnapshot>): HitMap {
    ProcessRows(DetectHit, map[], s, 0)
  }

  method BuildHitMap(balls: seq<Ball>) returns (hitMap: HitMap)
    ensures hitMap == HitMapOf(Snapshots(balls))
  {
    var s := CollectSnapshots(balls);
    hitMap := map[];
    for i := 0 to |s|
      invariant ProcessRows(DetectHit, hitMap, s, i) == HitMapOf(s)
    {
      if s[i].state != Running {
        continue;
      }
      hitMap := ScanRow(hitMap, s, i);
    }
  }

  /** The balls of the query, in iteration order. */
  method CollectSnapshots(balls: seq<Ball>) returns (s: seq<BallSnapshot>)
    ensures s == Snapshots(balls)
  {
    s := [];
    for k := 0 to |balls|
      invariant s == Snapshots(balls[..k])
    {
      assert balls[..k + 1][..k] == balls[..k];
      s := s + [Snapshot(balls[k])];
    }
    assert balls[..|balls|] == balls;
  }

  /** The inner loop for the running ball `i`: records its contacts with
      every later running ball. */
  method ScanRow(hitMap: HitMap, s: seq<BallSnapshot>, i: nat) returns (m: HitMap)
    requires i < |s|
    ensures m == ProcessRow(DetectHit, hitMap, s, i, 0)
  {
    m := hitMap;
    for j := 0 to |s|
      invariant ProcessRow(DetectHit, m, s, i, j) == ProcessRow(DetectHit, hitMap, s, i, 0)
    {
      if s[j].state != Running {
        continue;
      }
      if j > i {
        var h := DetectHit(s[i].property, s[j].property);
        if h != NoHit {
          m := RecordHitAction(m, h, s[i], s[j]);
        }
      }
    }
  }
}

/** The vocabulary the hit map is described in: contacts between balls,
    the actions they produce, and the bookkeeping invariants of the two
    nested loops of `build_hit_map`. */
module HitMapSpec {
  import opened Balls
  import opened BallInteraction

  /** Ball `k` is in contact with ball `j`: two different running balls
      whose classification is not `NoHit`. */
  predicate Contact(detect: Classifier, s: seq<BallSnapshot>, k: nat, j: nat)
    requires k < |s| && j < |s|
  {
    k != j && s[k].state == Running && s[j].state == Running
    && detect(s[k].property, s[j].property) != NoHit
  }

  /** The actions ball `k` receives from its contacts with balls `0 .. n-1`,
      in ball order. */
  function ContactActions(detect: Classifier, s: seq<BallSnapshot>, k: nat, n: nat): seq<HitAction>
    requires k < |s| && n <= |s|
  {
    if n == 0 then []
    else ContactActions(detect, s, k, n - 1) + (if Contact(detect, s, k, n - 1) then [PairAction(detect, s, k, n - 1)] else [])
  }

  /** The action ball `k` receives from its contact with ball `j`. */
  function PairAction(detect: Classifier, s: seq<BallSnapshot>, k: nat, j: nat): HitAction
    requires k < |s| && j < |s|
  {
    ActionFor(detect(s[k].property, s[j].property), s[k], s[j])
  }

  predicate DistinctEntities(s: seq<BallSnapshot>) {
    forall a, b :: 0 <= a < b < |s| ==> s[a].entity != s[b].entity
  }

  function Entities(s: seq<BallSnapshot>): set<Entity> {
    set k | 0 <= k < |s| :: s[k].entity
  }

  predicate NoEmptyList(m: HitMap) {
    forall e :: e in m ==> m[e] != []
  }

  /** A classifier that does not depend on the order of the two balls. */
  ghost predicate Symmetric(detect: Classifier) {
    forall p, q :: detect(p, q) == detect(q, p)
  }

  /** The list ball `k` holds in `m`. */
  function Listed(m: HitMap, s: seq<BallSnapshot>, k: nat): seq<HitAction>
    requires k < |s|
  {
    ActionsAt(m, s[k].entity)
  }

  /** After the rows before `i`: finished balls hold all their actions,
      the others those from partners before `i`. */
  predicate RowsInv(detect: Classifier, m: HitMap, s: seq<BallSnapshot>, i: nat)
    requires i <= |s|
  {
    && m.Keys <= Entities(s)
    && NoEmptyList(m)
    && forall k {:trigger Listed(m, s, k)} :: 0 <= k < |s| ==> Listed(m, s, k) == ContactActions(detect, s, k, if k < i then |s| else i)
  }

  function RowBound(i: nat, j: nat, k: nat, n: nat): nat {
    if k < i then n else if k == i then j else if k < j then i + 1 else i
  }

  /** `RowInv` as a property of the map and the next partner. */
  function RowInvAt(detect: Classifier, s: seq<BallSnapshot>, i: nat): (HitMap, nat) -> bool {
    (m, j) => i < j <= |s| && RowInv(detect, m, s, i, j)
  }

  /** `inv` survives every pair step of row `i`. */
  ghost predicate Preserved(detect: Classifier, s: seq<BallSnapshot>, i: nat, inv: (HitMap, nat) -> bool)
    requires i < |s|
  {
    forall m, j {:trigger PairStep(detect, m, s, i, j)} :: i < j < |s| && inv(m, j) ==> inv(PairStep(detect, m, s, i, j), j + 1)
  }

  /** Inside row `i`, before partner `j`. */
  predicate RowInv(detect: Classifier, m: HitMap, s: seq<BallSnapshot>, i: nat, j: nat)
    requires i < j <= |s|
  {
    && m.Keys <= Entities(s)
    && NoEmptyList(m)
    && forall k {:trigger Listed(m, s, k)} :: 0 <= k < |s| ==> Listed(m, s, k) == ContactActions(detect, s, k, RowBound(i, j, k, |s|))
  }
}

/** What the hit map of a tick holds, stated ball by ball. */
module HitMapTheory {
  import opened Balls
  import opened BallInteraction
  import opened HitMapSpec

  lemma ContactSymmetric(detect: Classifier, s: seq<BallSnapshot>, k: nat, j: nat)
    requires Symmetric(detect)
    requires k < |s| && j < |s|
    ensures Contact(detect, s, k, j) == Contact(detect, s, j, k)
    ensures detect(s[k].property, s[j].property) == detect(s[j].property, s[k].property)
  {
  }

  /** A ball that is not running receives nothing. */
  lemma {:induction false} IdleBallNoActions(detect: Classifier, s: seq<BallSnapshot>, k: nat, n: nat)
    requires k < |s| && n <= |s| && s[k].state != Running
    ensures ContactActions(detect, s, k, n) == []
  {
    if n > 0 {
      IdleBallNoActions(detect, s, k, n - 1);
    }
  }
  /** Partners up to `i` change nothing in row `i`. */
  lemma {:induction false} RowSkipsLowerPartners(detect: Classifier, m: HitMap, s: seq<BallSnapshot>, i: nat, j: nat)
    requires i < |s| && j <= i + 1
    ensures ProcessRow(detect, m, s, i, j) == ProcessRow(detect, m, s, i, i + 1)
    decreases i + 1 - j
  {
    if j < i + 1 {
      assert PairStep(detect, m, s, i, j) == m;
      RowSkipsLowerPartners(detect, m, s, i, j + 1);
    }
  }

  lemma RowStep(detect: Classifier, m: HitMap, s: seq<BallSnapshot>, i: nat, j: nat)
    requires Symmetric(detect)
    requires DistinctEntities(s)
    requires i < j < |s| && s[i].state == Running
    requires RowInv(detect, m, s, i, j)
    ensures RowInv(detect, PairStep(detect, m, s, i, j), s, i, j + 1)
  {
    ContactSymmetric(detect, s, i, j);
    assert s[i].entity != s[j].entity;
    if Contact(detect, s, i, j) {
      assert PairAction(detect, s, j, i) == ActionFor(detect(s[i].property, s[j].property), s[j], s[i]);
      var m' := AppendAction(AppendAction(m, s[i].entity, PairAction(detect, s, i, j)), s[j].entity, PairAction(detect, s, j, i));
      assert PairStep(detect, m, s, i, j) == m';
      RowStepOthers(detect, m, m', s, i, j);
    } else {
      assert PairStep(detect, m, s, i, j) == m;
      RowStepOthers(detect, m, m, s, i, j);
    }
  }

  /** The bookkeeping of one pair step: the two partners gain the contact's
      actions and every other ball keeps its list and its bound. */
  lemma RowStepOthers(detect: Classifier, m: HitMap, m': HitMap, s: seq<BallSnapshot>, i: nat, j: nat)
    requires DistinctEntities(s)
    requires i < j < |s| && s[i].state == Running
    requires RowInv(detect, m, s, i, j)
    requires Contact(detect, s, i, j) == Contact(detect, s, j, i)
    requires Contact(detect, s, i, j) ==> m' == AppendAction(AppendAction(m, s[i].entity, PairAction(detect, s, i, j)), s[j].entity, PairAction(detect, s, j, i))
    requires !Contact(detect, s, i, j) ==> m' == m
    ensures RowInv(detect, m', s, i, j + 1)
  {
    var c := Contact(detect, s, i, j);
    assert s[i].entity != s[j].entity;
    assert m'.Keys <= m.Keys + {s[i].entity, s[j].entity};
    assert NoEmptyList(m');
    forall k | 0 <= k < |s|
      ensures Listed(m', s, k) == ContactActions(detect, s, k, RowBound(i, j + 1, k, |s|))
    {
      ListStep(detect, m, m', s, i, j, k, c);
    }
  }

  lemma ListStep(detect: Classifier, m: HitMap, m': HitMap, s: seq<BallSnapshot>, i: nat, j: nat, k: nat, c: bool)
    requires DistinctEntities(s)
    requires i < j < |s| && k < |s|
    requires Listed(m, s, k) == ContactActions(detect, s, k, RowBound(i, j, k, |s|))
    requires c == Contact(detect, s, i, j) && c == Contact(detect, s, j, i)
    requires c ==> m' == AppendAction(AppendAction(m, s[i].entity, PairAction(detect, s, i, j)), s[j].entity, PairAction(detect, s, j, i))
    requires !c ==> m' == m
    ensures Listed(m', s, k) == ContactActions(detect, s, k, RowBound(i, j + 1, k, |s|))
  {
    assert s[i].entity != s[j].entity;
    if k == i || k == j {
      var o := if k == i then j else i;
      assert Listed(m', s, k) == Listed(m, s, k) + (if c then [PairAction(detect, s, k, o)] else []);
      ListStepPartner(detect, s, i, j, k, o);
    } else {
      assert s[k].entity != s[i].entity && s[k].entity != s[j].entity;
      assert Listed(m', s, k) == Listed(m, s, k);
      assert RowBound(i, j + 1, k, |s|) == RowBound(i, j, k, |s|);
    }
  }

  /** Ball `k` of the pair `i`, `j` gains its contact with the other one. */
  lemma ListStepPartner(detect: Classifier, s: seq<BallSnapshot>, i: nat, j: nat, k: nat, o: nat)
    requires i < j < |s| && ((k == i && o == j) || (k == j && o == i))
    ensures RowBound(i, j + 1, k, |s|) == RowBound(i, j, k, |s|) + 1 == o + 1
    ensures ContactActions(detect, s, k, RowBound(i, j + 1, k, |s|))
      == ContactActions(detect, s, k, RowBound(i, j, k, |s|)) + (if Contact(detect, s, k, o) then [PairAction(detect, s, k, o)] else [])
  {
  }

  /** Finishing row `i` from partner `j` on. */
  lemma RowDone(detect: Classifier, m: HitMap, s: seq<BallSnapshot>, i: nat, j: nat)
    requires Symmetric(detect)
    requires DistinctEntities(s)
    requires i < j <= |s| && s[i].state == Running
    requires RowInv(detect, m, s, i, j)
    ensures RowsInv(detect, ProcessRow(detect, m, s, i, j), s, i + 1)
  {
    var inv := RowInvAt(detect, s, i);
    RowInvPreserved(detect, s, i);
    assert inv(m, j);
    RowFold(detect, m, s, i, j, inv);
    RowEnd(detect, ProcessRow(detect, m, s, i, j), s, i);
  }

  /** Any property of the map that one pair step keeps holds at the end of
      the row. */
  lemma {:induction false} RowFold(detect: Classifier, m: HitMap, s: seq<BallSnapshot>, i: nat, j: nat, inv: (HitMap, nat) -> bool)
    requires i < j <= |s|
    requires Preserved(detect, s, i, inv)
    requires inv(m, j)
    ensures inv(ProcessRow(detect, m, s, i, j), |s|)
    decreases |s| - j
  {
    if j < |s| {
      RowFold(detect, PairStep(detect, m, s, i, j), s, i, j + 1, inv);
    }
  }

  lemma RowInvPreserved(detect: Classifier, s: seq<BallSnapshot>, i: nat)
    requires Symmetric(detect)
    requires DistinctEntities(s)
    requires i < |s| && s[i].state == Running
    ensures Preserved(detect, s, i, RowInvAt(detect, s, i))
  {
    forall m, j | i < j < |s| && RowInvAt(detect, s, i)(m, j)
      ensures RowInvAt(detect, s, i)(PairStep(detect, m, s, i, j), j + 1)
    {
      assert RowInv(detect, m, s, i, j);
      RowStep(detect, m, s, i, j);
    }
  }

  lemma ProcessRowUnfold(detect: Classifier, m: HitMap, s: seq<BallSnapshot>, i: nat, j: nat)
    requires i < |s| && j < |s|
    ensures ProcessRow(detect, m, s, i, j) == ProcessRow(detect, PairStep(detect, m, s, i, j), s, i, j + 1)
  {
  }

  lemma ProcessRowEnd(detect: Classifier, m: HitMap, s: seq<BallSnapshot>, i: nat)
    requires i < |s|
    ensures ProcessRow(detect, m, s, i, |s|) == m
  {
  }

  lemma RowEnd(detect: Classifier, m: HitMap, s: seq<BallSnapshot>, i: nat)
    requires i < |s|
    requires RowInv(detect, m, s, i, |s|)
    ensures RowsInv(detect, m, s, i + 1)
    ensures ProcessRow(detect, m, s, i, |s|) == m
  {
    forall k | 0 <= k < |s|
      ensures Listed(m, s, k) == ContactActions(detect, s, k, if k < i + 1 then |s| else i + 1)
    {
      assert RowBound(i, |s|, k, |s|) == if k < i + 1 then |s| else i + 1;
    }
  }

  lemma NoSelfContact(detect: Classifier, s: seq<BallSnapshot>, i: nat)
    requires i < |s|
    ensures ContactActions(detect, s, i, i + 1) == ContactActions(detect, s, i, i)
  {
    assert !Contact(detect, s, i, i);
  }

  /** Starting row `i` of a running ball from the state after the rows before it. */
  lemma RowStart(detect: Classifier, m: HitMap, s: seq<BallSnapshot>, i: nat)
    requires i < |s| && s[i].state == Running
    requires RowsInv(detect, m, s, i)
    ensures RowInv(detect, m, s, i, i + 1)
  {
    forall k | 0 <= k < |s|
      ensures Listed(m, s, k) == ContactActions(detect, s, k, RowBound(i, i + 1, k, |s|))
    {
      if k == i {
        NoSelfContact(detect, s, i);
      } else {
        assert RowBound(i, i + 1, k, |s|) == if k < i then |s| else i;
      }
    }
  }

  /** Skipping the row of a ball that is not running. */
  lemma RowSkip(detect: Classifier, m: HitMap, s: seq<BallSnapshot>, i: nat)
    requires i < |s| && s[i].state != Running
    requires RowsInv(detect, m, s, i)
    ensures RowsInv(detect, m, s, i + 1)
  {
    IdleBallNoActions(detect, s, i, |s|);
    IdleBallNoActions(detect, s, i, i);
    forall k | 0 <= k < |s|
      ensures Listed(m, s, k) == ContactActions(detect, s, k, if k < i + 1 then |s| else i + 1)
    {
      if k > i {
        assert !Contact(detect, s, k, i);
        assert ContactActions(detect, s, k, i + 1) == ContactActions(detect, s, k, i) + [];
      }
    }
  }

  lemma {:induction false} RowsDone(detect: Classifier, m: HitMap, s: seq<BallSnapshot>, i: nat)
    requires Symmetric(detect)
    requires DistinctEntities(s)
    requires i <= |s| && RowsInv(detect, m, s, i)
    ensures RowsInv(detect, ProcessRows(detect, m, s, i), s, |s|)
    decreases |s| - i
  {
    if i < |s| {
      if s[i].state == Running {
        var m' := ProcessRow(detect, m, s, i, 0);
        assert ProcessRows(detect, m, s, i) == ProcessRows(detect, m', s, i + 1);
        RowStart(detect, m, s, i);
        RowSkipsLowerPartners(detect, m, s, i, 0);
        RowDone(detect, m, s, i, i + 1);
        RowsDone(detect, m', s, i + 1);
      } else {
        assert ProcessRows(detect, m, s, i) == ProcessRows(detect, m, s, i + 1);
        RowSkip(detect, m, s, i);
        RowsDone(detect, m, s, i + 1);
      }
    }
  }

  /** The hit map of a tick, ball by ball: every running ball's list holds
      exactly one action per ball it is in contact with, in ball order, and
      the map has an entry for no other entity. So each unordered pair is
      evaluated once, actions are only ever appended, a ball in `n` contacts
      ends with `n` actions, and a ball that is not running, or touches
      nothing, gets no entry. */
  lemma HitMapContents(s: seq<BallSnapshot>)
    requires DistinctEntities(s)
    ensures HitMapOf(s).Keys <= Entities(s)
    ensures forall k :: 0 <= k < |s| ==> ActionsAt(HitMapOf(s), s[k].entity) == ContactActions(DetectHit, s, k, |s|)
    ensures forall k :: 0 <= k < |s| ==> |ActionsAt(HitMapOf(s), s[k].entity)| == |ContactSet(DetectHit, s, k, |s|)|
    ensures forall k :: 0 <= k < |s| ==> (s[k].entity in HitMapOf(s) <==> ContactSet(DetectHit, s, k, |s|) != {})
    ensures forall k :: 0 <= k < |s| && s[k].state != Running ==> s[k].entity !in HitMapOf(s)
  {
    forall p, q ensures DetectHit(p, q) == DetectHit(q, p) {
      DetectHitSymmetric(p, q);
    }
    RowsDone(DetectHit, map[], s, 0);
    forall k | 0 <= k < |s|
      ensures ActionsAt(HitMapOf(s), s[k].entity) == ContactActions(DetectHit, s, k, |s|)
      ensures |ActionsAt(HitMapOf(s), s[k].entity)| == |ContactSet(DetectHit, s, k, |s|)|
      ensures s[k].entity in HitMapOf(s) <==> ContactSet(DetectHit, s, k, |s|) != {}
      ensures s[k].state != Running ==> s[k].entity !in HitMapOf(s)
    {
      assert Listed(HitMapOf(s), s, k) == ContactActions(DetectHit, s, k, |s|);
      ContactCount(DetectHit, s, k, |s|);
      if s[k].state != Running {
        IdleBallNoActions(DetectHit, s, k, |s|);
      }
    }
  }

  /** The balls `k` is in contact with among the first `n`. */
  function ContactSet(detect: Classifier, s: seq<BallSnapshot>, k: nat, n: nat): set<nat>
    requires k < |s| && n <= |s|
  {
    set j: nat | j < n && Contact(detect, s, k, j)
  }

  /** One action per contact. */
  lemma {:induction false} ContactCount(detect: Classifier, s: seq<BallSnapshot>, k: nat, n: nat)
    requires k < |s| && n <= |s|
    ensures |ContactActions(detect, s, k, n)| == |ContactSet(detect, s, k, n)|
  {
    if n > 0 {
      ContactCount(detect, s, k, n - 1);
      var before := ContactSet(detect, s, k, n - 1);
      if Contact(detect, s, k, n - 1) {
        assert ContactSet(detect, s, k, n) == before + {n - 1};
        assert n - 1 !in before;
      } else {
        assert ContactSet(detect, s, k, n) == before;
      }
    }
  }
}

/** The velocity a ball leaves a contact with. */
module HitResponse {
  import opened Geometry
  import opened Balls
  import opened BallInteraction

  /** A ball's mass: its radius squared. */
  function Mass(p: BallProperty): (m: real)
    ensures m >= 0.0
  {
    SquareNonNegative(p.radius);
    p.radius * p.radius
  }

  /** The line of centres the impulse acts along: from the opponent to the
      ball for an outside contact, from the ball to the bowl's centre for an
      inside one. */
  function LineOfCentres(h: HitType, p1: BallProperty, p2: BallProperty): Vec2 {
    if h == Outside then Sub(p1.pos, p2.pos) else Sub(p2.pos, p1.pos)
  }

  /** The conditions under which the formula divides by non-zero numbers:
      the centres differ, and against a movable opponent the masses do not
      both vanish. */
  predicate Defined(h: HitType, p1: BallProperty, p2: BallProperty) {
    LengthSq(LineOfCentres(h, p1, p2)) > 0.0
    && (p2.movementType == Movable ==> Mass(p1) + Mass(p2) > 0.0)
  }

  /** The new velocity of the ball `p1` after contact `h` with `p2`: an
      elastic impulse along the line of centres against a movable opponent,
      a mirror reflection off an immovable one, except that a ball inside a
      bowl moving towards the bowl's centre keeps its velocity. */
  function CalcVAfterHit(h: HitType, p1: BallProperty, p2: BallProperty): (v: Vec2)
    requires Defined(h, p1, p2)
    ensures p2.movementType == FixedReversed && Dot(p1.v, LineOfCentres(h, p1, p2)) > 0.0 ==> v == p1.v
  {
    var vp := LineOfCentres(h, p1, p2);
    if p2.movementType == Movable then
      Sub(p1.v, Scale(ElasticFactor(Mass(p1), Mass(p2), Dot(Sub(p1.v, p2.v), vp), LengthSq(vp)), vp))
    else if p2.movementType == FixedReversed && Dot(p1.v, vp) > 0.0 then
      p1.v
    else
      Sub(p1.v, Scale(2.0 * Dot(p1.v, vp) / LengthSq(vp), vp))
  }

  /** `2 m2 / (m1 + m2) * d / l`, evaluated left to right as written. */
  function ElasticFactor(m1: real, m2: real, d: real, l: real): real
    requires m1 + m2 != 0.0 && l != 0.0
  {
    2.0 * m2 / (m1 + m2) * d / l
  }

  /** Reflection off an immovable ball keeps the speed. */
  lemma ReflectionKeepsSpeed(h: HitType, p1: BallProperty, p2: BallProperty)
    requires Defined(h, p1, p2) && p2.movementType != Movable
    ensures LengthSq(CalcVAfterHit(h, p1, p2)) == LengthSq(p1.v)
  {
    var vp := LineOfCentres(h, p1, p2);
    if !(p2.movementType == FixedReversed && Dot(p1.v, vp) > 0.0) {
      var d := Dot(p1.v, vp);
      var l := LengthSq(vp);
      var c := 2.0 * d / l;
      assert c * l == 2.0 * d;
      LengthSqSubScale(p1.v, vp, c);
      assert c * c * l == c * (2.0 * d);
    }
  }

  /** The reflection is a mirror in the tangent at the contact: the
      component along the line of centres flips, the tangential one stays. */
  lemma ReflectionMirrors(h: HitType, p1: BallProperty, p2: BallProperty)
    requires Defined(h, p1, p2) && p2.movementType != Movable
    requires !(p2.movementType == FixedReversed && Dot(p1.v, LineOfCentres(h, p1, p2)) > 0.0)
    ensures Dot(CalcVAfterHit(h, p1, p2), LineOfCentres(h, p1, p2)) == -Dot(p1.v, LineOfCentres(h, p1, p2))
    ensures Dot(CalcVAfterHit(h, p1, p2), Perp(LineOfCentres(h, p1, p2))) == Dot(p1.v, Perp(LineOfCentres(h, p1, p2)))
  {
    var vp := LineOfCentres(h, p1, p2);
    var d := Dot(p1.v, vp);
    var l := LengthSq(vp);
    var c := 2.0 * d / l;
    assert c * l == 2.0 * d;
    DotSubScale(p1.v, vp, c, vp);
    DotSubScale(p1.v, vp, c, Perp(vp));
    assert Dot(vp, Perp(vp)) == 0.0;
  }

  /** Two balls of equal size colliding head on, their relative velocity
      along the line of centres, exchange velocities. */
  lemma EqualMassesSwap(h: HitType, p1: BallProperty, p2: BallProperty, k: real)
    requires Defined(h, p1, p2) && p2.movementType == Movable
    requires p1.radius == p2.radius
    requires Sub(p1.v, p2.v) == Scale(k, LineOfCentres(h, p1, p2))
    ensures CalcVAfterHit(h, p1, p2) == p2.v
  {
    var vp := LineOfCentres(h, p1, p2);
    var l := LengthSq(vp);
    var d := Dot(Sub(p1.v, p2.v), vp);
    DotScaleSelf(k, vp);
    EqualMassFactor(Mass(p2), k, l);
    assert ElasticFactor(Mass(p1), Mass(p2), d, l) == k;
  }

  lemma DotScaleSelf(k: real, a: Vec2)
    ensures Dot(Scale(k, a), a) == k * LengthSq(a)
  {
  }

  lemma EqualMassFactor(m: real, k: real, l: real)
    requires m + m != 0.0 && l != 0.0
    ensures ElasticFactor(m, m, k * l, l) == k
  {
    assert 2.0 * m / (m + m) == 1.0;
    assert k * l / l == k;
  }

  /** The factor with the opponent's mass taken out. */
  lemma ElasticFactorSplit(m1: real, m2: real, d: real, l: real)
    requires m1 + m2 != 0.0 && l != 0.0
    ensures ElasticFactor(m1, m2, d, l) == m2 * (2.0 * d / ((m1 + m2) * l))
  {
  }

  /** The two impulses carry the same momentum. */
  lemma ElasticFactorsBalance(m1: real, m2: real, d: real, l: real)
    requires m1 + m2 != 0.0 && l != 0.0
    ensures m1 * ElasticFactor(m1, m2, d, l) == m2 * ElasticFactor(m2, m1, d, l)
  {
    ElasticFactorSplit(m1, m2, d, l);
    ElasticFactorSplit(m2, m1, d, l);
    assert (m2 + m1) * l == (m1 + m2) * l;
  }

  lemma OpposedImpulses(m1: real, m2: real, c1: real, c2: real, u1: Vec2, u2: Vec2, vp: Vec2)
    requires m1 * c1 == m2 * c2
    ensures Add(Scale(m1, Sub(u1, Scale(c1, vp))), Scale(m2, Sub(u2, Scale(c2, Scale(-1.0, vp)))))
         == Add(Scale(m1, u1), Scale(m2, u2))
  {
    var lhs := Add(Scale(m1, Sub(u1, Scale(c1, vp))), Scale(m2, Sub(u2, Scale(c2, Scale(-1.0, vp)))));
    assert lhs.x == m1 * u1.x + m2 * u2.x by {
      OpposedScalar(m1, m2, c1, c2, u1.x, u2.x, vp.x);
    }
    assert lhs.y == m1 * u1.y + m2 * u2.y by {
      OpposedScalar(m1, m2, c1, c2, u1.y, u2.y, vp.y);
    }
  }

  lemma OpposedScalar(m1: real, m2: real, c1: real, c2: real, a: real, b: real, t: real)
    requires m1 * c1 == m2 * c2
    ensures m1 * (a - c1 * t) + m2 * (b - c2 * (-1.0 * t)) == m1 * a + m2 * b
  {
    assert m1 * (c1 * t) == (m1 * c1) * t;
    assert m2 * (c2 * t) == (m2 * c2) * t;
  }

  /** Between two movable balls, the pair of new velocities keeps the total
      momentum. */
  lemma MomentumConserved(h: HitType, p1: BallProperty, p2: BallProperty)
    requires Defined(h, p1, p2) && Defined(h, p2, p1)
    requires p1.movementType == Movable && p2.movementType == Movable
    ensures Add(Scale(Mass(p1), CalcVAfterHit(h, p1, p2)), Scale(Mass(p2), CalcVAfterHit(h, p2, p1)))
         == Add(Scale(Mass(p1), p1.v), Scale(Mass(p2), p2.v))
  {
    var vp := LineOfCentres(h, p1, p2);
    var vq := LineOfCentres(h, p2, p1);
    assert vq == Scale(-1.0, vp);
    var m1, m2 := Mass(p1), Mass(p2);
    var l := LengthSq(vp);
    assert LengthSq(vq) == l;
    var d := Dot(Sub(p1.v, p2.v), vp);
    assert Dot(Sub(p2.v, p1.v), vq) == d;
    ElasticFactorsBalance(m1, m2, d, l);
    OpposedImpulses(m1, m2, ElasticFactor(m1, m2, d, l), ElasticFactor(m2, m1, d, l), p1.v, p2.v, vp);
  }
}
