/** What the moves of the sticky balancer do to the load map, and where they end. */
module LoadBalancing {
  import opened Common
  import opened Placements
  import opened Sums

  /** How many replicas a broker holding x may still be given below the target t. */
  function Room(limits: map<BrokerId, int>, t: int, b: BrokerId, x: int): int {
    var cap := if Get(limits, b) <= 0 then t else Min(t, Get(limits, b));
    if x < cap then cap - x else 0
  }

  /** How far x lies above t + 1. */
  function Over(t: int, x: int): int {
    if x > t + 1 then x - (t + 1) else 0
  }

  function RoomBelow(limits: map<BrokerId, int>, t: int): (BrokerId, int) -> int {
    (b: BrokerId, x: int) => Room(limits, t, b, x)
  }

  function OverBy(t: int): (BrokerId, int) -> int {
    (b: BrokerId, x: int) => Over(t, x)
  }

  function Square(b: BrokerId, x: int): int { x * x }

  ghost function Deficit(load: map<BrokerId, int>, limits: map<BrokerId, int>, t: int): int {
    Sum(load, RoomBelow(limits, t))
  }

  ghost function Excess(load: map<BrokerId, int>, t: int): int {
    Sum(load, OverBy(t))
  }

  /** No broker below the target is held there by its limit. */
  ghost predicate Liftable(load: map<BrokerId, int>, limits: map<BrokerId, int>, t: int) {
    forall b :: b in load ==> load[b] >= t || Get(limits, b) <= 0 || Get(limits, b) >= t
  }

  /** A move the balancer makes: off a most loaded broker above the target, onto one below it with room. */
  ghost predicate Move(load: map<BrokerId, int>, limits: map<BrokerId, int>, t: int, from: BrokerId, to: BrokerId) {
    && from in load && to in load
    && load[from] > t && (forall b :: b in load ==> load[b] <= load[from])
    && load[to] < t && WithinLimit(limits, to, load[to])
  }

  ghost function Moved(load: map<BrokerId, int>, from: BrokerId, to: BrokerId): map<BrokerId, int>
    requires from in load && to in load && from != to
  {
    load[from := load[from] - 1][to := load[to] + 1]
  }

  lemma SumMoved(load: map<BrokerId, int>, f: (BrokerId, int) -> int, from: BrokerId, to: BrokerId)
    requires from in load && to in load && from != to
    ensures Sum(Moved(load, from, to), f) ==
            Sum(load, f) - f(from, load[from]) + f(from, load[from] - 1) - f(to, load[to]) + f(to, load[to] + 1)
  {
    SumUpdate(load, f, from, load[from] - 1);
    SumUpdate(load[from := load[from] - 1], f, to, load[to] + 1);
  }

  /** Every move lowers the sum of squares, so the moves must come to an end. */
  lemma MoveLowersSquares(load: map<BrokerId, int>, from: BrokerId, to: BrokerId)
    requires from in load && to in load && load[from] >= load[to] + 2
    ensures Sum(Moved(load, from, to), Square) <= Sum(load, Square) - 2
  {
    SumMoved(load, Square, from, to);
    hide Sum;
    SquareDrop(load[from], load[to]);
    assert Square(from, load[from]) - Square(from, load[from] - 1) + Square(to, load[to]) - Square(to, load[to] + 1) >= 2;
  }

  lemma SquareDrop(x: int, y: int)
    requires x >= y + 2
    ensures (x - 1) * (x - 1) + (y + 1) * (y + 1) <= x * x + y * y - 2
  {
    assert (x - 1) * (x - 1) == x * x - 2 * x + 1;
    assert (y + 1) * (y + 1) == y * y + 2 * y + 1;
  }

  /** No move widens the spread of loads. */
  lemma MoveNeverWidens(load: map<BrokerId, int>, from: BrokerId, to: BrokerId, d: int)
    requires from in load && to in load && load[from] >= load[to] + 2 && Balanced(load, d)
    ensures Balanced(Moved(load, from, to), d)
  {
    assert load[from] - load[to] <= d;
    forall a, b | a in load && b in load ensures Moved(load, from, to)[a] - Moved(load, from, to)[b] <= d {
      assert load[a] - load[b] <= d && load[from] - load[b] <= d && load[a] - load[to] <= d;
    }
  }

  lemma MoveFillsRoom(load: map<BrokerId, int>, limits: map<BrokerId, int>, t: int, from: BrokerId, to: BrokerId)
    requires Move(load, limits, t, from, to)
    ensures Deficit(Moved(load, from, to), limits, t) == Deficit(load, limits, t) - 1
    ensures Liftable(Moved(load, from, to), limits, t) <==> Liftable(load, limits, t)
  {
    SumMoved(load, RoomBelow(limits, t), from, to);
    assert RoomBelow(limits, t)(from, load[from]) == 0 && RoomBelow(limits, t)(from, load[from] - 1) == 0;
    assert RoomBelow(limits, t)(to, load[to] + 1) == RoomBelow(limits, t)(to, load[to]) - 1;
    var after := Moved(load, from, to);
    assert forall b :: b in load ==>
      ((after[b] >= t || Get(limits, b) <= 0 || Get(limits, b) >= t) <==> (load[b] >= t || Get(limits, b) <= 0 || Get(limits, b) >= t));
  }

  lemma ExcessZero(load: map<BrokerId, int>, t: int)
    ensures Excess(load, t) >= 0
    ensures Excess(load, t) == 0 <==> forall b :: b in load ==> load[b] <= t + 1
  {
    SumPositive(load, OverBy(t));
    if forall b :: b in load ==> load[b] <= t + 1 {
      SumAtMost(load, OverBy(t), 0);
    } else {
      var b :| b in load && load[b] > t + 1;
      SumZero(load, OverBy(t), b);
    }
  }

  lemma MoveCutsExcess(load: map<BrokerId, int>, limits: map<BrokerId, int>, t: int, from: BrokerId, to: BrokerId)
    requires Move(load, limits, t, from, to)
    ensures Excess(Moved(load, from, to), t) == Max(0, Excess(load, t) - 1)
  {
    SumMoved(load, OverBy(t), from, to);
    ExcessZero(load, t);
    assert OverBy(t)(to, load[to]) == 0 && OverBy(t)(to, load[to] + 1) == 0;
    assert OverBy(t)(from, load[from]) == Over(t, load[from]);
    assert OverBy(t)(from, load[from] - 1) == Over(t, load[from] - 1);
  }

  // ---------------------------------------------------------------------
  // Where the moves end
  // ---------------------------------------------------------------------

  /** There are enough replicas for every broker to reach the target. */
  ghost predicate Filled(load: map<BrokerId, int>, t: int) {
    Sum(load, Itself) >= t * |load|
  }

  lemma LowMeansHigh(load: map<BrokerId, int>, t: int, low: BrokerId) returns (high: BrokerId)
    requires Filled(load, t) && low in load && load[low] < t
    ensures high in load && load[high] > t
  {
    if forall b :: b in load ==> load[b] <= t {
      AllLow(load, t, low);
      assert false;
    }
    high :| high in load && load[high] > t;
  }

  lemma AllLow(load: map<BrokerId, int>, t: int, low: BrokerId)
    requires low in load && load[low] < t && forall b :: b in load ==> load[b] <= t
    ensures Sum(load, Itself) < t * |load|
  {
    SumRemove(load, Itself, low);
    assert Itself(low, load[low]) < t;
    hide Sum, Itself;
    assert |load - {low}| == |load| - 1;
    SumAtMost(load - {low}, Itself, t) by { assert forall b :: b in load ==> Itself(b, load[b]) == load[b]; }
    MulNext(t, |load| - 1);
  }

  /** While some broker is below the target the assignment cannot be balanced. */
  lemma LowNotBalanced(load: map<BrokerId, int>, t: int, low: BrokerId)
    requires Filled(load, t) && low in load && load[low] < t
    ensures !Balanced(load, 1)
  {
    var high := LowMeansHigh(load, t, low);
    assert load[high] - load[low] > 1;
  }

  lemma NoRoomLeft(load: map<BrokerId, int>, limits: map<BrokerId, int>, t: int)
    ensures Deficit(load, limits, t) >= 0
    ensures Deficit(load, limits, t) == 0 <==> forall b :: b in load ==> Room(limits, t, b, load[b]) == 0
  {
    SumPositive(load, RoomBelow(limits, t));
    if forall b :: b in load ==> Room(limits, t, b, load[b]) == 0 {
      SumAtMost(load, RoomBelow(limits, t), 0);
    } else {
      var b :| b in load && Room(limits, t, b, load[b]) != 0;
      SumZero(load, RoomBelow(limits, t), b);
    }
  }

  lemma BalancedMeansNoRoom(load: map<BrokerId, int>, limits: map<BrokerId, int>, t: int)
    requires Filled(load, t) && Balanced(load, 1)
    ensures Deficit(load, limits, t) == 0
    ensures Liftable(load, limits, t)
  {
    forall b | b in load ensures load[b] >= t {
      if load[b] < t { LowNotBalanced(load, t, b); }
    }
    NoRoomLeft(load, limits, t);
  }

  lemma DeficitBound(load: map<BrokerId, int>, limits: map<BrokerId, int>, t: int)
    requires t >= 0 && forall b :: b in load ==> load[b] >= 0
    ensures Deficit(load, limits, t) <= t * |load|
  {
    SumAtMost(load, RoomBelow(limits, t), t);
  }

  /** The state of the balancer after some moves from init. */
  ghost predicate Reached(init: map<BrokerId, int>, load: map<BrokerId, int>, limits: map<BrokerId, int>, t: int, moves: nat) {
    && Filled(load, t)
    && Deficit(load, limits, t) == Deficit(init, limits, t) - moves
    && Excess(load, t) == Max(0, Excess(init, t) - moves)
    && (Liftable(load, limits, t) <==> Liftable(init, limits, t))
    && (moves == 0 ==> load == init)
    && (moves > 0 ==> exists b :: b in load && load[b] <= t)
  }

  lemma ReachedStep(init: map<BrokerId, int>, load: map<BrokerId, int>, limits: map<BrokerId, int>, t: int, moves: nat, from: BrokerId, to: BrokerId)
    requires Reached(init, load, limits, t, moves) && Move(load, limits, t, from, to)
    ensures Reached(init, Moved(load, from, to), limits, t, moves + 1)
  {
    hide Deficit, Excess, Liftable;
    MoveFillsRoom(load, limits, t, from, to);
    MoveCutsExcess(load, limits, t, from, to);
    SumMoved(load, Itself, from, to);
    var after := Moved(load, from, to);
    assert after.Keys == load.Keys;
    assert |after| == |load| by { assert |after.Keys| == |load.Keys|; }
    assert Filled(after, t);
    assert after[to] <= t;
  }

  /** The exact condition under which the balancer ends within a spread of one. */
  ghost predicate CanBalance(init: map<BrokerId, int>, limits: map<BrokerId, int>, t: int) {
    Excess(init, t) <= Deficit(init, limits, t) && Liftable(init, limits, t)
  }

  lemma WhereItEnds(init: map<BrokerId, int>, load: map<BrokerId, int>, limits: map<BrokerId, int>, t: int, moves: nat)
    requires !Balanced(init, 1) && Reached(init, load, limits, t, moves) && Deficit(load, limits, t) == 0
    ensures Balanced(load, 1) <==> CanBalance(init, limits, t)
  {
    ExcessZero(load, t);
    NoRoomLeft(load, limits, t);
    if Balanced(load, 1) {
      BalancedMeansNoRoom(load, limits, t);
      var low :| low in load && load[low] <= t;
      assert forall b :: b in load ==> load[b] - load[low] <= 1;
    }
    if CanBalance(init, limits, t) {
      assert forall b :: b in load ==> t <= load[b] <= t + 1;
    }
  }
}
