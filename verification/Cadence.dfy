/**
 The human-cadence lanes. The clock is read once per call and timers fire on
 time; random draws are inputs.
 */
module Cadence {
  import opened Basics

  /** `HumanizerConfig`; durations in nanoseconds. */
  datatype Humanizer = Humanizer(
    enabled: bool,
    initialMin: int, initialMax: int,
    baseMin: int, baseMax: int,
    providerMin: int, providerMax: int,
    burstMin: int, burstMax: int,
    pauseMin: int, pauseMax: int)

  /** The ranges `validate` accepts. */
  predicate ValidRanges(h: Humanizer) {
    && 0 <= h.initialMin <= h.initialMax && 0 <= h.baseMin <= h.baseMax && 0 <= h.providerMin <= h.providerMax
    && 1 <= h.burstMin <= h.burstMax && 0 <= h.pauseMin <= h.pauseMax
  }

  /** `randomDuration` and `randomInt`: rand.Int63n(span+1) is the draw reduced to that range. */
  function Draw(min: int, max: int, draw: nat): (r: int)
    ensures min <= r
    ensures r <= Max(min, max)
  {
    if max <= min then min else min + draw % (max - min + 1)
  }

  /** Every value of the range can be drawn. */
  lemma DrawReaches(min: int, max: int, value: int)
    requires min <= value <= max
    ensures exists draw: nat :: Draw(min, max, draw) == value
  {
    DrawnAs(min, max, value);
  }

  /** `Duration.Milliseconds`, which truncates towards zero. */
  function Milliseconds(d: int): int {
    if d >= 0 then d / 1_000_000 else -(-d / 1_000_000)
  }

  /** The random numbers one call may consume. */
  datatype Draws = Draws(initial: nat, base: nat, goal: nat, pause: nat, nextGoal: nat, provider: nat)

  datatype Lane = Lane(last: Option<Time>, goal: int, count: int)

  const NEW_LANE := Lane(None, 0, 0)

  // ---------------------------------------------------------- specification

  function BaseWait(h: Humanizer, l: Lane, now: Time, d: Draws): int {
    match l.last
    case None => Draw(h.initialMin, h.initialMax, d.initial)
    case Some(last) => Max(0, last + Draw(h.baseMin, h.baseMax, d.base) - now)
  }

  function Goal(h: Humanizer, l: Lane, d: Draws): int {
    if l.goal == 0 then Draw(h.burstMin, h.burstMax, d.goal) else l.goal
  }

  /** The burst is used up: this dispatch waits for the burst pause and opens a new burst. */
  predicate Pauses(h: Humanizer, l: Lane, d: Draws) {
    l.count >= Goal(h, l, d)
  }

  function WaitFor(h: Humanizer, l: Lane, now: Time, d: Draws): int {
    if Pauses(h, l, d) && l.last.Some?
    then Max(BaseWait(h, l, now, d), l.last.value + Draw(h.pauseMin, h.pauseMax, d.pause) - now)
    else BaseWait(h, l, now, d)
  }

  /** The lane before it starts waiting. */
  function Armed(h: Humanizer, l: Lane, d: Draws): Lane {
    if Pauses(h, l, d) then Lane(l.last, Draw(h.burstMin, h.burstMax, d.nextGoal), 0) else l.(goal := Goal(h, l, d))
  }

  /** The lane after the dispatch. */
  function Dispatched(h: Humanizer, l: Lane, now: Time, d: Draws): Lane {
    var a := Armed(h, l, d);
    a.(last := Some(now + WaitFor(h, l, now, d)), count := a.count + 1)
  }

  // ------------------------------------------------------------- what it means

  /** A lane that holds dispatches has a burst goal. */
  predicate LaneOk(l: Lane) {
    0 <= l.goal && 0 <= l.count && (l.goal == 0 ==> l.count == 0) && (l.last.None? ==> l.count == 0)
  }

  /** The burst of the lane has used up its goal. */
  predicate UsedUp(l: Lane) {
    l.goal > 0 && l.count >= l.goal
  }

  /** `at` is a proper time for the next dispatch, decided at `now`: the first one comes after an initial delay, every
      other one a base delay after the one before it, and also a burst pause after it if the burst is used up. It is not
      put off any longer than that. */
  predicate Timely(h: Humanizer, l: Lane, now: Time, at: Time) {
    match l.last
    case None => now + h.initialMin <= at <= now + h.initialMax
    case Some(last) =>
      && now <= at && last + h.baseMin <= at
      && if UsedUp(l) then last + h.pauseMin <= at <= Max(now, Max(last + h.baseMax, last + h.pauseMax))
         else at <= Max(now, last + h.baseMax)
  }

  /** The dispatch is the first of a new burst, with a goal of its own, or one more of the old one. */
  predicate Booked(h: Humanizer, l: Lane, at: Time, l': Lane) {
    && l'.last == Some(at)
    && if UsedUp(l) then l'.count == 1 && h.burstMin <= l'.goal <= h.burstMax
       else l'.count == l.count + 1 && if l.goal > 0 then l'.goal == l.goal else h.burstMin <= l'.goal <= h.burstMax
  }

  /** The wait was cancelled: no dispatch, but a burst that was used up is over. */
  predicate LeftWaiting(h: Humanizer, l: Lane, l': Lane) {
    && l'.last == l.last
    && if UsedUp(l) then l'.count == 0 && h.burstMin <= l'.goal <= h.burstMax
       else l'.count == l.count && if l.goal > 0 then l'.goal == l.goal else h.burstMin <= l'.goal <= h.burstMax
  }

  /** Every dispatch is timely and booked. */
  lemma DispatchIsTimely(h: Humanizer, l: Lane, now: Time, d: Draws)
    requires ValidRanges(h) && LaneOk(l)
    ensures LeftWaiting(h, l, Armed(h, l, d)) && LaneOk(Armed(h, l, d))
    ensures var at := now + WaitFor(h, l, now, d);
            Timely(h, l, now, at) && Booked(h, l, at, Dispatched(h, l, now, d)) && LaneOk(Dispatched(h, l, now, d))
  {
  }

  /** What the call comes to with the given delays and burst goal. */
  ghost predicate Occurs(h: Humanizer, l: Lane, now: Time, d: Draws, initial: int, base: int, pause: int, goal: int) {
    && now + WaitFor(h, l, now, d)
       == (match l.last
           case None => now + initial
           case Some(last) => Max(now, Max(last + base, if UsedUp(l) then last + pause else last + base)))
    && Armed(h, l, d).goal == (if l.goal > 0 && !UsedUp(l) then l.goal else goal)
  }

  /** The delays are drawn from their whole ranges: every initial delay, every base delay with every burst pause, and
      every burst goal can come up. */
  lemma EveryDelayOccurs(h: Humanizer, l: Lane, now: Time, initial: int, base: int, pause: int, goal: int)
    requires ValidRanges(h) && LaneOk(l)
    requires h.initialMin <= initial <= h.initialMax && h.baseMin <= base <= h.baseMax
    requires h.pauseMin <= pause <= h.pauseMax && h.burstMin <= goal <= h.burstMax
    ensures exists d :: Occurs(h, l, now, d, initial, base, pause, goal)
  {
    hide Occurs;
    var d := Draws(initial - h.initialMin, base - h.baseMin, goal - h.burstMin, pause - h.pauseMin, goal - h.burstMin,
                   0);
    DrawnAs(h.initialMin, h.initialMax, initial);
    DrawnAs(h.baseMin, h.baseMax, base);
    DrawnAs(h.pauseMin, h.pauseMax, pause);
    DrawnAs(h.burstMin, h.burstMax, goal);
    OccursWith(h, l, now, d, initial, base, pause, goal);
  }

  lemma DrawnAs(min: int, max: int, value: int)
    requires min <= value <= max
    ensures Draw(min, max, value - min) == value
  {
  }

  lemma OccursWith(h: Humanizer, l: Lane, now: Time, d: Draws, initial: int, base: int, pause: int, goal: int)
    requires ValidRanges(h) && LaneOk(l) && h.burstMin <= goal
    requires Draw(h.initialMin, h.initialMax, d.initial) == initial && Draw(h.baseMin, h.baseMax, d.base) == base
    requires Draw(h.pauseMin, h.pauseMax, d.pause) == pause && Draw(h.burstMin, h.burstMax, d.goal) == goal
    requires Draw(h.burstMin, h.burstMax, d.nextGoal) == goal
    ensures Occurs(h, l, now, d, initial, base, pause, goal)
  {
    hide Draw;
  }

  // -------------------------------------------------------------------- class

  class DispatchLane {
    var lastDispatchAt: Option<Time>
    var burstGoal: int
    var burstCount: int

    constructor ()
      ensures View() == NEW_LANE
    {
      lastDispatchAt, burstGoal, burstCount := None, 0, 0;
    }

    function View(): Lane
      reads this
    {
      Lane(lastDispatchAt, burstGoal, burstCount)
    }

    /** The critical section of `waitForHumanCadence`; `cancelled` when the context ends during the wait. */
    method Wait(h: Humanizer, now: Time, d: Draws, cancelled: bool) returns (providerDelay: int, waitFor: int, ok: bool)
      modifies this
      ensures waitFor == (if ok then WaitFor(h, old(View()), now, d) else 0)
      ensures ok == !(cancelled && WaitFor(h, old(View()), now, d) > 0)
      ensures View() == if ok then Dispatched(h, old(View()), now, d) else Armed(h, old(View()), d)
      ensures ok ==> providerDelay == Milliseconds(Draw(h.providerMin, h.providerMax, d.provider))
      ensures ValidRanges(h) && LaneOk(old(View())) && ok ==>
                && Timely(h, old(View()), now, now + waitFor) && Booked(h, old(View()), now + waitFor, View())
                && Milliseconds(h.providerMin) <= providerDelay <= Milliseconds(h.providerMax)
      ensures ValidRanges(h) && LaneOk(old(View())) ==> LaneOk(View()) && (!ok ==> LeftWaiting(h, old(View()), View()))
    {
      if ValidRanges(h) && LaneOk(View()) {
        DispatchIsTimely(h, View(), now, d);
      }
      providerDelay, ok := 0, true;
      waitFor := 0;
      if lastDispatchAt.None? {
        waitFor := Draw(h.initialMin, h.initialMax, d.initial);
      } else {
        var until := lastDispatchAt.value + Draw(h.baseMin, h.baseMax, d.base) - now;
        if until > waitFor {
          waitFor := until;
        }
      }
      if burstGoal == 0 {
        burstGoal := Draw(h.burstMin, h.burstMax, d.goal);
      }
      if burstCount >= burstGoal {
        if lastDispatchAt.Some? {
          var until := lastDispatchAt.value + Draw(h.pauseMin, h.pauseMax, d.pause) - now;
          if until > waitFor {
            waitFor := until;
          }
        }
        burstCount := 0;
        burstGoal := Draw(h.burstMin, h.burstMax, d.nextGoal);
      }
      if waitFor > 0 && cancelled {
        waitFor, ok := 0, false;
        return;
      }
      lastDispatchAt := Some(now + waitFor);
      burstCount := burstCount + 1;
      providerDelay := Milliseconds(Draw(h.providerMin, h.providerMax, d.provider));
    }
  }

  /** The lanes of the dispatch worker, one per instance. */
  class Lanes {
    var lanes: map<InstanceId, DispatchLane>

    ghost predicate Valid()
      reads this
    {
      forall a, b :: a in lanes && b in lanes && a != b ==> lanes[a] != lanes[b]
    }

    constructor ()
      ensures Valid() && lanes == map[]
    {
      lanes := map[];
    }

    /** `dispatchLane`: the lane of the instance, created on first use. */
    method Get(instance: InstanceId) returns (lane: DispatchLane)
      requires Valid()
      modifies this
      ensures Valid() && instance in lanes && lanes[instance] == lane
      ensures instance in old(lanes) ==> lanes == old(lanes)
      ensures instance !in old(lanes) ==>
                fresh(lane) && lane.View() == NEW_LANE && lanes == old(lanes)[instance := lane]
    {
      if instance in lanes {
        lane := lanes[instance];
      } else {
        lane := new DispatchLane();
        lanes := lanes[instance := lane];
      }
    }

    function LaneOf(instance: InstanceId): Lane
      reads this, if instance in lanes then {lanes[instance]} else {}
    {
      if instance in lanes then lanes[instance].View() else NEW_LANE
    }

    /** `waitForHumanCadence`: one lane moves, all others are untouched. */
    method WaitForHumanCadence(h: Humanizer, instance: InstanceId, now: Time, d: Draws, cancelled: bool)
      returns (providerDelay: int, waitFor: int, ok: bool)
      requires Valid()
      modifies this, lanes.Values
      ensures Valid() && fresh(lanes.Values - old(lanes.Values))
      ensures !h.enabled ==> ok && waitFor == 0 && lanes == old(lanes) && LaneOf(instance) == old(LaneOf(instance))
      ensures h.enabled ==>
        && ok == !(cancelled && WaitFor(h, old(LaneOf(instance)), now, d) > 0)
        && LaneOf(instance)
           == (if ok then Dispatched(h, old(LaneOf(instance)), now, d) else Armed(h, old(LaneOf(instance)), d))
        && waitFor == (if ok then WaitFor(h, old(LaneOf(instance)), now, d) else 0)
        && (ValidRanges(h) && LaneOk(old(LaneOf(instance))) && ok ==>
              && Timely(h, old(LaneOf(instance)), now, now + waitFor)
              && Booked(h, old(LaneOf(instance)), now + waitFor, LaneOf(instance))
              && Milliseconds(h.providerMin) <= providerDelay <= Milliseconds(h.providerMax))
      ensures forall other :: other != instance ==> LaneOf(other) == old(LaneOf(other))
    {
      if !h.enabled {
        return 0, 0, true;
      }
      var lane := Get(instance);
      providerDelay, waitFor, ok := lane.Wait(h, now, d, cancelled);
    }
  }

  // --------------------------------------------------------- the rate of a lane

  datatype Call = Call(now: Time, draws: Draws)

  /** The lane after a sequence of dispatches. */
  function Play(h: Humanizer, calls: seq<Call>): Lane {
    if calls == [] then NEW_LANE
    else Dispatched(h, Play(h, calls[..|calls| - 1]), calls[|calls| - 1].now, calls[|calls| - 1].draws)
  }

  /** When the k-th dispatch happens. */
  function TimeOf(h: Humanizer, calls: seq<Call>, k: nat): Time
    requires k < |calls|
  {
    Play(h, calls[..k + 1]).last.value
  }

  /** How many of the dispatches i+1..j waited for a burst pause. */
  function PausesBetween(h: Humanizer, calls: seq<Call>, i: nat, j: nat): nat
    requires i <= j < |calls|
    decreases j
  {
    if i == j then 0
    else PausesBetween(h, calls, i, j - 1) + (if Pauses(h, Play(h, calls[..j]), calls[j].draws) then 1 else 0)
  }

  /** After a dispatch the burst holds between one and `goal` dispatches. */
  lemma {:induction false} BurstBounds(h: Humanizer, calls: seq<Call>)
    requires ValidRanges(h) && calls != []
    ensures var l := Play(h, calls); l.last.Some? && 1 <= l.count <= l.goal && h.burstMin <= l.goal <= h.burstMax
  {
    if |calls| > 1 {
      BurstBounds(h, calls[..|calls| - 1]);
    }
  }

  lemma Gap(h: Humanizer, calls: seq<Call>, j: nat)
    requires ValidRanges(h) && 0 < j < |calls|
    ensures var paused := Pauses(h, Play(h, calls[..j]), calls[j].draws);
            && TimeOf(h, calls, j) - TimeOf(h, calls, j - 1) >= h.baseMin
               + (if paused then Max(0, h.pauseMin - h.baseMin) else 0)
            && Play(h, calls[..j + 1]).count == (if paused then 1 else Play(h, calls[..j]).count + 1)
  {
    BurstBounds(h, calls[..j]);
    assert calls[..j + 1][..j] == calls[..j];
  }

  lemma {:induction false} PausesPay(h: Humanizer, calls: seq<Call>, i: nat, j: nat)
    requires ValidRanges(h) && i <= j < |calls|
    ensures var p := PausesBetween(h, calls, i, j);
            && TimeOf(h, calls, j) - TimeOf(h, calls, i) >= (j - i) * h.baseMin + p * Max(0, h.pauseMin - h.baseMin)
            && j - i <= p * h.burstMax + Play(h, calls[..j + 1]).count - Play(h, calls[..i + 1]).count
    decreases j
  {
    if i < j {
      PausesPay(h, calls, i, j - 1);
      Gap(h, calls, j);
      BurstBounds(h, calls[..j]);
      PayStep(j - 1 - i, PausesBetween(h, calls, i, j - 1), Pauses(h, Play(h, calls[..j]), calls[j].draws),
              h.baseMin, Max(0, h.pauseMin - h.baseMin), h.burstMax,
              TimeOf(h, calls, j - 1) - TimeOf(h, calls, i), TimeOf(h, calls, j) - TimeOf(h, calls, j - 1),
              Play(h, calls[..i + 1]).count, Play(h, calls[..j]).count, Play(h, calls[..j + 1]).count);
    }
  }

  /** A burst pause comes no sooner than after `burstMin` dispatches. */
  lemma {:induction false} PausesAreEarned(h: Humanizer, calls: seq<Call>, i: nat, j: nat)
    requires ValidRanges(h) && i <= j < |calls|
    ensures PausesBetween(h, calls, i, j) * h.burstMin
            <= (j - i) + Play(h, calls[..i + 1]).count - Play(h, calls[..j + 1]).count
    decreases j
  {
    if i < j {
      PausesAreEarned(h, calls, i, j - 1);
      Gap(h, calls, j);
      BurstBounds(h, calls[..j]);
      EarnedStep(PausesBetween(h, calls, i, j - 1), h.burstMin);
    }
  }

  lemma EarnedStep(p: nat, least: int)
    ensures (p + 1) * least == p * least + least
  {
  }

  /** The longest that a stretch of eager calls can take. */
  ghost predicate Eager(h: Humanizer, calls: seq<Call>, i: nat, j: nat)
    requires i <= j < |calls|
  {
    forall k :: i < k <= j ==> Play(h, calls[..k]).last.Some? && calls[k].now <= Play(h, calls[..k]).last.value
  }

  lemma EagerCall(h: Humanizer, calls: seq<Call>, i: nat, j: nat)
    requires i < j < |calls| && Eager(h, calls, i, j)
    ensures Eager(h, calls, i, j - 1)
    ensures Play(h, calls[..j]).last.Some? && calls[j].now <= Play(h, calls[..j]).last.value
  {
    hide Play;
  }

  lemma GapFromAbove(h: Humanizer, calls: seq<Call>, j: nat)
    requires ValidRanges(h) && 0 < j < |calls|
    requires Play(h, calls[..j]).last.Some? && calls[j].now <= Play(h, calls[..j]).last.value
    ensures TimeOf(h, calls, j) - TimeOf(h, calls, j - 1) <= h.baseMax
            + (if Pauses(h, Play(h, calls[..j]), calls[j].draws) then Max(0, h.pauseMax - h.baseMax) else 0)
  {
    BurstBounds(h, calls[..j]);
    assert calls[..j + 1][..j] == calls[..j];
  }

  lemma {:induction false} PausesCost(h: Humanizer, calls: seq<Call>, i: nat, j: nat)
    requires ValidRanges(h) && i <= j < |calls| && Eager(h, calls, i, j)
    ensures TimeOf(h, calls, j) - TimeOf(h, calls, i)
            <= (j - i) * h.baseMax + PausesBetween(h, calls, i, j) * Max(0, h.pauseMax - h.baseMax)
    decreases j
  {
    if i < j {
      hide Play, TimeOf, Pauses, Eager;
      EagerCall(h, calls, i, j);
      PausesCost(h, calls, i, j - 1);
      GapFromAbove(h, calls, j);
      CostStep(j - 1 - i, PausesBetween(h, calls, i, j - 1), h.baseMax, Max(0, h.pauseMax - h.baseMax));
    }
  }

  lemma CostStep(n: nat, p: nat, base: int, extra: int)
    ensures (n + 1) * base == n * base + base && (p + 1) * extra == p * extra + extra
  {
  }

  /** The lane is no slower than configured either: when no call comes late, dispatches i < j are at most (j-i) base
      delays apart, plus a burst pause for every `BurstSizeMin` dispatches, counting those of the burst under way. */
  lemma RateFromAbove(h: Humanizer, calls: seq<Call>, i: nat, j: nat)
    requires ValidRanges(h) && i < j < |calls| && Eager(h, calls, i, j)
    ensures TimeOf(h, calls, j) - TimeOf(h, calls, i)
            <= (j - i) * h.baseMax + (j - i + h.burstMax - 1) / h.burstMin * Max(0, h.pauseMax - h.baseMax)
  {
    PausesCost(h, calls, i, j);
    PausesAreEarned(h, calls, i, j);
    BurstBounds(h, calls[..i + 1]);
    BurstBounds(h, calls[..j + 1]);
    hide Play, TimeOf, PausesBetween, Eager;
    var p, n := PausesBetween(h, calls, i, j), j - i + h.burstMax - 1;
    AtMostQuotient(p, n, h.burstMin);
    Monotone(p, n / h.burstMin, Max(0, h.pauseMax - h.baseMax));
  }

  lemma AtMostQuotient(p: nat, n: nat, b: int)
    requires b >= 1 && p * b <= n
    ensures p <= n / b
  {
    if p > n / b {
      assert (n / b + 1) * b > n;
      Monotone(n / b + 1, p, b);
    }
  }

  /** The arithmetic of one more dispatch. */
  lemma PayStep(n: nat, p: nat, paused: bool, base: int, extra: int, burst: int, before: int, gap: int,
                first: int, last: int, next: int)
    requires before >= n * base + p * extra && gap >= base + (if paused then extra else 0)
    requires n <= p * burst + last - first && last <= burst && next == (if paused then 1 else last + 1)
    ensures var q := p + (if paused then 1 else 0);
            before + gap >= (n + 1) * base + q * extra && n + 1 <= q * burst + next - first
  {
    assert (n + 1) * base == n * base + base;
    assert (p + 1) * extra == p * extra + extra;
    assert (p + 1) * burst == p * burst + burst;
  }

  /** Windowed rate bound: with fixed settings, dispatches i < j of one lane are at least
      (j-i) base delays apart, plus a burst pause for every full burst in between. */
  lemma WindowedRate(h: Humanizer, calls: seq<Call>, i: nat, j: nat)
    requires ValidRanges(h) && i < j < |calls|
    ensures TimeOf(h, calls, j) - TimeOf(h, calls, i)
            >= (j - i) * h.baseMin + (j - i) / h.burstMax * Max(0, h.pauseMin - h.baseMin)
  {
    PausesPay(h, calls, i, j);
    BurstBounds(h, calls[..i + 1]);
    BurstBounds(h, calls[..j + 1]);
    WindowArithmetic(j - i, PausesBetween(h, calls, i, j), h.burstMax, h.baseMin, Max(0, h.pauseMin - h.baseMin),
                     TimeOf(h, calls, j) - TimeOf(h, calls, i), Play(h, calls[..i + 1]).count, Play(h,
                            calls[..j + 1]).count);
  }

  lemma WindowArithmetic(n: nat, p: nat, burst: int, base: int, extra: nat, apart: int, first: int, last: int)
    requires apart >= n * base + p * extra && burst >= 1
    requires n <= p * burst + last - first && 1 <= first && last <= burst
    ensures apart >= n * base + n / burst * extra
  {
    FullBursts(n, p, burst);
    Monotone(n / burst, p, extra);
  }

  lemma FullBursts(n: nat, p: nat, b: nat)
    requires b >= 1 && n <= p * b + b - 1
    ensures n / b <= p
  {
    var q := n / b;
    assert q * b <= n;
    assert (q - p) * b == q * b - p * b;
    NotPositive(q - p, b);
  }

  lemma NotPositive(d: int, b: int)
    requires b >= 1 && d * b <= b - 1
    ensures d <= 0
  {
    assert (d - 1) * b == d * b - b;
  }

  lemma Monotone(a: nat, b: nat, x: nat)
    requires a <= b
    ensures a * x <= b * x
  {
  }

  /** Every wait is bounded by the largest configured delay, when the clock has not run backwards. */
  lemma WaitBounded(h: Humanizer, l: Lane, now: Time, d: Draws)
    requires ValidRanges(h) && (l.last.Some? ==> l.last.value <= now)
    ensures 0 <= WaitFor(h, l, now, d) <= Max(h.initialMax, Max(h.baseMax, h.pauseMax))
  {
  }
}
