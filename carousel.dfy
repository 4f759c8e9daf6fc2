/**
 * The home screen's circular card stack (app/page.tsx): one "create" card
 * followed by ten album cards. Wheel, pointer and keyboard input are turned
 * into at most one index shift at a time; an animation lock, released by a
 * timer, drops input that arrives while a transition is running.
 *
 * Wheel and pointer coordinates are `real`; the source's floating-point
 * factors are written as exact rationals.
 */
module Carousel {
  import opened Arithmetic

  datatype StackItem =
    | CreateCard(gradient: string)
    | AlbumCard(id: string, title: string, subtitle: string, gradient: string)

  const Albums: seq<StackItem> := [
    AlbumCard("ember-odes", "Ember Echoes", "Analog warmth in a twilight forest.",
      "linear-gradient(135deg,#ffb347 0%,#ff6f61 60%,#b33951 100%)"),
    AlbumCard("aurora", "Aurora Trails", "Synth waves traveling through polar skies.",
      "linear-gradient(135deg,#74ebd5 0%,#9face6 100%)"),
    AlbumCard("embers-deep", "Midnight Ember", "Deep drums and midnight embers colliding.",
      "linear-gradient(135deg,#ff9a9e 0%,#fad0c4 100%)"),
    AlbumCard("campfire", "Campfire Chorus", "Stories sung beneath starlit canopies.",
      "linear-gradient(135deg,#fbd3e9 0%,#bb377d 100%)"),
    AlbumCard("horizon", "Horizon Sparks", "Pulses of light cresting distant peaks.",
      "linear-gradient(135deg,#83a4d4 0%,#b6fbff 100%)"),
    AlbumCard("crimson-dusk", "Crimson Dusk", "Smoldering beats under red skies.",
      "linear-gradient(135deg,#ff6f61 0%,#c31432 100%)"),
    AlbumCard("neon-river", "Neon River", "Electric currents through a midnight city.",
      "linear-gradient(135deg,#00d2ff 0%,#3a7bd5 100%)"),
    AlbumCard("saffron-skies", "Saffron Skies", "Sunlit grooves over warm horizons.",
      "linear-gradient(135deg,#f6d365 0%,#fda085 100%)"),
    AlbumCard("velvet-moon", "Velvet Moon", "Soft echoes drifting past lunar craters.",
      "linear-gradient(135deg,#434343 0%,#000000 100%)"),
    AlbumCard("cobalt-drift", "Cobalt Drift", "Bluewave textures rolling offshore.",
      "linear-gradient(135deg,#36d1dc 0%,#5b86e5 100%)")
  ]

  /** The stack shown on the home screen: the create card first, then the albums in order. */
  const Stack: seq<StackItem> := [CreateCard("linear-gradient(135deg,#ff6b6b 0%,#d7263d 100%)")] + Albums

  const TotalCards: nat := |Stack|

  const CardGap: real := 160.0
  /** 160 * 1.1 evaluates to exactly 176.0 in binary64 arithmetic. */
  const DragLimit: real := 176.0
  /** 160 * 0.4 evaluates to exactly 64.0 in binary64 arithmetic. */
  const SnapThreshold: real := 64.0
  const WheelNoiseLimit: real := 40.0
  const WheelCommitLimit: real := 120.0

  /** The React key of a card: "create-card" for the create card, the album id otherwise. */
  function CardKey(item: StackItem): string {
    match item
    case CreateCard(_) => "create-card"
    case AlbumCard(id, _, _, _) => id
  }

  /** The stack has eleven cards, the create card is the first and only create card, and keys are distinct. */
  lemma StackShape()
    ensures TotalCards == 11
    ensures Stack[0].CreateCard?
    ensures forall i :: 1 <= i < TotalCards ==> Stack[i].AlbumCard?
    ensures forall i, j :: 0 <= i < j < TotalCards ==> CardKey(Stack[i]) != CardKey(Stack[j])
  {
  }

  function Abs(x: real): real {
    if x < 0.0 then -x else x
  }

  function Clamp(x: real, lo: real, hi: real): (r: real)
    requires lo <= hi
    ensures lo <= r <= hi
    ensures lo <= x <= hi ==> r == x
  {
    if x > hi then hi else if x < lo then lo else x
  }

  /**
   * The index after one step around a ring of `n` cards:
   * `(index + step + n) % n`. The operand is never negative here, so
   * JavaScript's truncating `%` agrees with Dafny's.
   */
  function Shifted(index: int, step: int, n: nat): (r: int)
    requires 0 <= index < n
    requires step == 1 || step == -1
    ensures 0 <= r < n
    ensures step == 1 ==> r == if index == n - 1 then 0 else index + 1
    ensures step == -1 ==> r == if index == 0 then n - 1 else index - 1
  {
    (index + step + n) % n
  }

  /** `k` consecutive forward shifts. */
  function ShiftedForward(index: int, k: nat, n: nat): int
    requires 0 <= index < n
  {
    if k == 0 then index else Shifted(ShiftedForward(index, k - 1, n), 1, n)
  }

  lemma {:induction false} ShiftedForwardIsModular(index: int, k: nat, n: nat)
    requires 0 <= index < n
    ensures ShiftedForward(index, k, n) == (index + k) % n
  {
    if k > 0 {
      ShiftedForwardIsModular(index, k - 1, n);
      ModSucc(index + k - 1, n);
    }
  }

  /** Going once around the ring returns to the same card. */
  lemma FullTurn(index: int, n: nat)
    requires 0 <= index < n
    ensures ShiftedForward(index, n, n) == index
  {
    ShiftedForwardIsModular(index, n, n);
    ModUnique(index + n, 1, index, n);
  }

  /** A forward shift followed by a backward one (or the reverse) is the identity. */
  lemma ShiftInverse(index: int, n: nat)
    requires 0 <= index < n
    ensures Shifted(Shifted(index, 1, n), -1, n) == index
    ensures Shifted(Shifted(index, -1, n), 1, n) == index
  {
  }

  /**
   * The signed ring distance from the current card to card `index`, taking the
   * shorter way round. The source compares against `totalCards / 2` in
   * floating point, which is `2 * delta > n` in integers.
   */
  function CircularDelta(index: int, current: int, n: int): (d: int)
    requires 0 <= index < n && 0 <= current < n
    ensures -n <= 2 * d <= n
    ensures d == index - current || d == index - current - n || d == index - current + n
  {
    var delta := index - current;
    var delta' := if 2 * delta > n then delta - n else delta;
    if 2 * delta' < -n then delta' + n else delta'
  }

  /** No way round the ring (any offset congruent to the index difference) is shorter. */
  lemma CircularDeltaIsShortest(index: int, current: int, n: int, k: int)
    requires 0 <= index < n && 0 <= current < n
    ensures var d, m := CircularDelta(index, current, n), index - current + k * n;
            (if d < 0 then -d else d) <= (if m < 0 then -m else m)
  {
    var d := CircularDelta(index, current, n);
    var j := if d == index - current then k else if d == index - current - n then k + 1 else k - 1;
    var m := index - current + k * n;
    assert m == d + j * n;
    MultipleBounds(j, n);
  }

  /** Two different cards never sit at the same ring position. */
  lemma CircularDeltaInjective(i: int, j: int, current: int, n: int)
    requires 0 <= i < n && 0 <= j < n && 0 <= current < n
    requires CircularDelta(i, current, n) == CircularDelta(j, current, n)
    ensures i == j
  {
  }

  /** How the view places one card; rendering strings (transform, shadow) are not modelled. */
  datatype CardLayout = CardLayout(
    distance: real,
    scale: real,
    visible: bool,
    blurred: bool,
    interactive: bool,
    zIndex: int)

  /** JavaScript's `Math.round` on a non-negative number. */
  function Round(x: real): int {
    (x + 0.5).Floor
  }

  /** The falloff rules applied to a card at continuous ring position `relativePosition`. */
  function LayoutAt(relativePosition: real, n: nat): (l: CardLayout)
    ensures l.distance == Abs(relativePosition)
    ensures 0.85 <= l.scale <= 1.0
    ensures l.visible <==> l.distance < 3.0
    ensures l.blurred <==> 2.0 <= l.distance < 3.0
    ensures l.visible <==> l.interactive
    ensures l.blurred ==> l.visible
    ensures l.zIndex <= n
  {
    var distance := Abs(relativePosition);
    var scale := if 1.0 - distance * 0.08 < 0.85 then 0.85 else 1.0 - distance * 0.08;
    var thirdOrBeyond := distance >= 2.0;
    var fourthOrBeyond := distance >= 3.0;
    CardLayout(
      distance,
      scale,
      !fourthOrBeyond,
      thirdOrBeyond && !fourthOrBeyond,
      !fourthOrBeyond,
      n - Round(distance * 10.0))
  }

  /** The layout of card `index` while `current` is selected and the stack is dragged by `dragOffset`. */
  function CardLayoutFor(index: int, current: int, n: nat, dragOffset: real): (l: CardLayout)
    requires 0 <= index < n && 0 <= current < n
    ensures index == current ==> l.distance == Abs(dragOffset) / CardGap
    ensures 2.0 * l.distance <= n as real + 2.0 * Abs(dragOffset) / CardGap
  {
    LayoutAt(CircularDelta(index, current, n) as real + dragOffset / CardGap, n)
  }

  /** Closer cards are at least as large and stacked at least as high. */
  lemma LayoutMonotone(p: real, q: real, n: nat)
    requires Abs(p) <= Abs(q)
    ensures LayoutAt(p, n).scale >= LayoutAt(q, n).scale
    ensures LayoutAt(p, n).zIndex >= LayoutAt(q, n).zIndex
    ensures !LayoutAt(p, n).visible ==> !LayoutAt(q, n).visible
  {
    assert Abs(p) * 10.0 + 0.5 <= Abs(q) * 10.0 + 0.5;
  }

  /** At rest, a card is shown exactly when it is at most two positions away, and blurred exactly at two. */
  lemma RestingLayout(index: int, current: int, n: nat)
    requires 0 <= index < n && 0 <= current < n
    ensures var d := CircularDelta(index, current, n);
            var a := if d < 0 then -d else d;
            var l := CardLayoutFor(index, current, n, 0.0);
            && (l.visible <==> a <= 2)
            && (l.blurred <==> a == 2)
            && l.zIndex == n - 10 * a
            && (a <= 1 ==> l.scale == 1.0 - 0.08 * a as real)
  {
    var d := CircularDelta(index, current, n);
    var a := if d < 0 then -d else d;
    assert Abs(d as real + 0.0 / CardGap) == a as real;
    assert (a as real * 10.0 + 0.5).Floor == 10 * a;
  }

  /** Whatever the drag, the selected card stays visible, sharp and clickable. */
  lemma SelectedCardInFocus(current: int, n: nat, dragOffset: real)
    requires 0 <= current < n
    requires -DragLimit <= dragOffset <= DragLimit
    ensures var l := CardLayoutFor(current, current, n, dragOffset);
            l.visible && !l.blurred && l.interactive && l.scale >= 0.912 && l.zIndex >= n - 11
  {
    var rel := 0 as real + dragOffset / CardGap;
    assert -1.1 <= rel <= 1.1;
    assert Abs(rel) * 10.0 + 0.5 <= 11.5;
  }

  /** The wheel delta after small deltas (below 40) are amplified by 1.3. */
  function WheelAdjusted(deltaY: real): (r: real)
    ensures Abs(deltaY) >= WheelNoiseLimit ==> r == deltaY
    ensures Abs(r) <= Abs(deltaY) * 1.3
    ensures (r > 0.0 <==> deltaY > 0.0) && (r < 0.0 <==> deltaY < 0.0)
  {
    if Abs(deltaY) < WheelNoiseLimit then deltaY * 13.0 / 10.0 else deltaY
  }

  /** Remove every occurrence of a timer id (`timers.filter(id => id !== timer)`). */
  function Without(timers: seq<nat>, id: nat): (r: seq<nat>)
    ensures id !in r
    ensures forall t :: t in r <==> t in timers && t != id
    ensures |r| <= |timers|
    ensures multiset(r) == multiset(timers)[id := 0]
    ensures id !in timers ==> r == timers
  {
    if timers == [] then []
    else
      assert timers == [timers[0]] + timers[1..];
      if timers[0] == id then Without(timers[1..], id)
      else [timers[0]] + Without(timers[1..], id)
  }

  /**
   * The carousel's state: the React state `currentIndex`/`dragOffset`/`isDragging`,
   * the refs for the animation lock, the drag origin and the wheel accumulator,
   * and the ids of the pending unlock timers.
   */
  class CarouselState {
    var currentIndex: int
    var dragOffset: real
    var isAnimating: bool
    var dragging: bool
    var startY: real
    var wheelAccumulator: real
    var timers: seq<nat>
    /** Stand-in for the browser's timer-id allocator. */
    var nextTimerId: nat

    ghost predicate Valid()
      reads this
    {
      && 0 <= currentIndex < TotalCards
      && -DragLimit <= dragOffset <= DragLimit
      && -WheelCommitLimit <= wheelAccumulator <= WheelCommitLimit
      // at most one transition is in flight, and an unlock timer is pending exactly while locked
      && |timers| <= 1
      && (isAnimating <==> |timers| == 1)
    }

    constructor ()
      ensures Valid()
      ensures currentIndex == 0 && dragOffset == 0.0
      ensures !isAnimating && !dragging && wheelAccumulator == 0.0 && timers == []
    {
      currentIndex := 0;
      dragOffset := 0.0;
      isAnimating := false;
      dragging := false;
      startY := 0.0;
      wheelAccumulator := 0.0;
      timers := [];
      nextTimerId := 1;
    }

    /** scheduleUnlock: registers a timer that will release the lock after 510 ms (the 480 ms transition plus 30). */
    method ScheduleUnlock()
      modifies this
      ensures timers == old(timers) + [old(nextTimerId)]
      ensures nextTimerId == old(nextTimerId) + 1
      ensures currentIndex == old(currentIndex) && dragOffset == old(dragOffset)
      ensures isAnimating == old(isAnimating) && dragging == old(dragging)
      ensures startY == old(startY) && wheelAccumulator == old(wheelAccumulator)
    {
      timers := timers + [nextTimerId];
      nextTimerId := nextTimerId + 1;
    }

    /** The unlock timer `id` fires: the lock is released and the timer forgotten. */
    method FireUnlockTimer(id: nat)
      requires Valid() && id in timers
      modifies this
      ensures Valid()
      ensures !isAnimating && timers == []
      ensures currentIndex == old(currentIndex) && dragOffset == old(dragOffset)
      ensures dragging == old(dragging) && startY == old(startY)
      ensures wheelAccumulator == old(wheelAccumulator) && nextTimerId == old(nextTimerId)
    {
      isAnimating := false;
      timers := Without(timers, id);
    }

    /** shiftBy(step): a no-op while locked; otherwise lock, move one card round the ring, reset the drag. */
    method ShiftBy(step: int)
      requires Valid() && (step == 1 || step == -1)
      modifies this
      ensures Valid()
      ensures old(isAnimating) ==>
        currentIndex == old(currentIndex) && dragOffset == old(dragOffset) && isAnimating
        && timers == old(timers) && nextTimerId == old(nextTimerId)
      ensures !old(isAnimating) ==>
        currentIndex == Shifted(old(currentIndex), step, TotalCards) && dragOffset == 0.0
        && isAnimating && timers == [old(nextTimerId)] && nextTimerId == old(nextTimerId) + 1
      ensures dragging == old(dragging) && startY == old(startY)
      ensures wheelAccumulator == old(wheelAccumulator)
    {
      if isAnimating {
        return;
      }
      isAnimating := true;
      currentIndex := (currentIndex + step + TotalCards) % TotalCards;
      dragOffset := 0.0;
      ScheduleUnlock();
    }

    /**
     * handleWheel: dropped while locked or dragging; otherwise accumulates the
     * adjusted delta and, once its magnitude exceeds 120, shifts once in its
     * direction and clears the accumulator.
     */
    method HandleWheel(deltaY: real)
      requires Valid()
      modifies this
      ensures Valid()
      ensures old(isAnimating) || old(dragging) ==>
        currentIndex == old(currentIndex) && dragOffset == old(dragOffset)
        && wheelAccumulator == old(wheelAccumulator) && isAnimating == old(isAnimating)
        && timers == old(timers) && nextTimerId == old(nextTimerId)
      ensures !old(isAnimating) && !old(dragging) ==>
        var acc := old(wheelAccumulator) + WheelAdjusted(deltaY);
        if Abs(acc) > WheelCommitLimit then
          && currentIndex == Shifted(old(currentIndex), if acc > 0.0 then 1 else -1, TotalCards)
          && wheelAccumulator == 0.0 && dragOffset == 0.0 && isAnimating
          && timers == [old(nextTimerId)] && nextTimerId == old(nextTimerId) + 1
        else
          && currentIndex == old(currentIndex) && wheelAccumulator == acc
          && dragOffset == old(dragOffset) && !isAnimating
          && timers == old(timers) && nextTimerId == old(nextTimerId)
      ensures dragging == old(dragging) && startY == old(startY)
    {
      if isAnimating || dragging {
        return;
      }
      var adjusted := WheelAdjusted(deltaY);
      // the sum is held in a local until the shift is done; the shift does not read the accumulator
      var acc := wheelAccumulator + adjusted;
      if Abs(acc) > WheelCommitLimit {
        if acc > 0.0 {
          ShiftBy(1);
        } else {
          ShiftBy(-1);
        }
        wheelAccumulator := 0.0;
      } else {
        wheelAccumulator := acc;
      }
    }

    /** handlePointerDown: ignored while locked; otherwise starts a drag at `clientY`. */
    method PointerDown(clientY: real)
      requires Valid()
      modifies this
      ensures Valid()
      ensures old(isAnimating) ==> dragging == old(dragging) && startY == old(startY)
      ensures !old(isAnimating) ==> dragging && startY == clientY
      ensures currentIndex == old(currentIndex) && dragOffset == old(dragOffset)
      ensures isAnimating == old(isAnimating) && wheelAccumulator == old(wheelAccumulator)
      ensures timers == old(timers) && nextTimerId == old(nextTimerId)
    {
      if isAnimating {
        return;
      }
      dragging := true;
      startY := clientY;
    }

    /** handlePointerMove: while dragging, the stack follows the pointer, clamped to ±DragLimit. */
    method PointerMove(clientY: real)
      requires Valid()
      modifies this
      ensures Valid()
      ensures old(dragging) ==> dragOffset == Clamp(clientY - startY, -DragLimit, DragLimit)
      ensures !old(dragging) ==> dragOffset == old(dragOffset)
      ensures currentIndex == old(currentIndex) && isAnimating == old(isAnimating)
      ensures dragging == old(dragging) && startY == old(startY)
      ensures wheelAccumulator == old(wheelAccumulator)
      ensures timers == old(timers) && nextTimerId == old(nextTimerId)
    {
      if !dragging {
        return;
      }
      var deltaY := clientY - startY;
      var clamped := if deltaY > DragLimit then DragLimit else if deltaY < -DragLimit then -DragLimit else deltaY;
      dragOffset := clamped;
    }

    /**
     * endDrag: ends a drag, reverts the offset and, for a pointer-up (shouldSnap)
     * with the lock clear and a displacement of at least 64, shifts once: to the
     * previous card for a downward drag, to the next card otherwise.
     */
    method EndDrag(clientY: real, shouldSnap: bool)
      requires Valid()
      modifies this
      ensures Valid()
      ensures !old(dragging) ==>
        currentIndex == old(currentIndex) && dragOffset == old(dragOffset) && !dragging
        && isAnimating == old(isAnimating) && timers == old(timers) && nextTimerId == old(nextTimerId)
      ensures old(dragging) ==>
        var deltaY := clientY - old(startY);
        var snaps := shouldSnap && !old(isAnimating) && Abs(deltaY) >= SnapThreshold;
        && !dragging && dragOffset == 0.0
        && (snaps ==>
              currentIndex == Shifted(old(currentIndex), if deltaY > 0.0 then -1 else 1, TotalCards)
              && isAnimating && timers == [old(nextTimerId)] && nextTimerId == old(nextTimerId) + 1)
        && (!snaps ==>
              currentIndex == old(currentIndex) && isAnimating == old(isAnimating)
              && timers == old(timers) && nextTimerId == old(nextTimerId))
      ensures startY == old(startY) && wheelAccumulator == old(wheelAccumulator)
    {
      if !dragging {
        return;
      }
      dragging := false;
      var deltaY := clientY - startY;
      dragOffset := 0.0;
      if !shouldSnap || isAnimating {
        return;
      }
      if Abs(deltaY) < SnapThreshold {
        return;
      }
      if deltaY > 0.0 {
        ShiftBy(-1);
      } else {
        ShiftBy(1);
      }
    }

    /** handlePointerUp: end the drag and allow a snap. */
    method PointerUp(clientY: real)
      requires Valid()
      modifies this
      ensures Valid()
      ensures !old(dragging) ==>
        currentIndex == old(currentIndex) && dragOffset == old(dragOffset) && !dragging
        && isAnimating == old(isAnimating) && timers == old(timers) && nextTimerId == old(nextTimerId)
      ensures old(dragging) ==>
        var deltaY := clientY - old(startY);
        var snaps := !old(isAnimating) && Abs(deltaY) >= SnapThreshold;
        && !dragging && dragOffset == 0.0
        && (snaps ==>
              currentIndex == Shifted(old(currentIndex), if deltaY > 0.0 then -1 else 1, TotalCards)
              && isAnimating && timers == [old(nextTimerId)] && nextTimerId == old(nextTimerId) + 1)
        && (!snaps ==>
              currentIndex == old(currentIndex) && isAnimating == old(isAnimating)
              && timers == old(timers) && nextTimerId == old(nextTimerId))
      ensures startY == old(startY) && wheelAccumulator == old(wheelAccumulator)
    {
      EndDrag(clientY, true);
    }

    /** handlePointerLeave: end the drag without ever shifting. */
    method PointerLeave(clientY: real)
      requires Valid()
      modifies this
      ensures Valid()
      ensures currentIndex == old(currentIndex) && isAnimating == old(isAnimating) && timers == old(timers)
      ensures !dragging && dragOffset == (if old(dragging) then 0.0 else old(dragOffset))
      ensures startY == old(startY) && wheelAccumulator == old(wheelAccumulator) && nextTimerId == old(nextTimerId)
    {
      EndDrag(clientY, false);
    }

    /** handlePointerCancel: end the drag without ever shifting. */
    method PointerCancel(clientY: real)
      requires Valid()
      modifies this
      ensures Valid()
      ensures currentIndex == old(currentIndex) && isAnimating == old(isAnimating) && timers == old(timers)
      ensures !dragging && dragOffset == (if old(dragging) then 0.0 else old(dragOffset))
      ensures startY == old(startY) && wheelAccumulator == old(wheelAccumulator) && nextTimerId == old(nextTimerId)
    {
      EndDrag(clientY, false);
    }

    /** handleKeyDown: ArrowDown/PageDown go to the next card, ArrowUp/PageUp to the previous one. */
    method KeyDown(key: string)
      requires Valid()
      modifies this
      ensures Valid()
      ensures var step := if key == "ArrowDown" || key == "PageDown" then 1
                          else if key == "ArrowUp" || key == "PageUp" then -1 else 0;
        if step != 0 && !old(isAnimating) then
          currentIndex == Shifted(old(currentIndex), step, TotalCards) && dragOffset == 0.0 && isAnimating
          && timers == [old(nextTimerId)] && nextTimerId == old(nextTimerId) + 1
        else
          currentIndex == old(currentIndex) && dragOffset == old(dragOffset)
          && isAnimating == old(isAnimating) && timers == old(timers) && nextTimerId == old(nextTimerId)
      ensures dragging == old(dragging) && startY == old(startY)
      ensures wheelAccumulator == old(wheelAccumulator)
    {
      if key == "ArrowDown" || key == "PageDown" {
        ShiftBy(1);
      }
      if key == "ArrowUp" || key == "PageUp" {
        ShiftBy(-1);
      }
    }
  }

  /** Three forward shifts from the first card, each after the lock has cleared, visit cards 1, 2 and 3. */
  method ThreeShiftsScenario() returns (visited: seq<int>)
    ensures visited == [1, 2, 3]
  {
    var c := new CarouselState();
    visited := [];
    var k := 0;
    while k < 3
      invariant 0 <= k <= 3
      invariant c.Valid() && !c.isAnimating && c.currentIndex == k
      invariant visited == seq(k, i => i + 1)
    {
      c.ShiftBy(1);
      visited := visited + [c.currentIndex];
      c.FireUnlockTimer(c.timers[0]);
      k := k + 1;
    }
  }

  /** Wheel events of 150 each shift exactly once per event (once the lock has cleared) and leave no residue. */
  method WheelScenario() returns (indices: seq<int>, residues: seq<real>)
    ensures indices == [1, 2] && residues == [0.0, 0.0]
  {
    var c := new CarouselState();
    c.HandleWheel(150.0);
    indices, residues := [c.currentIndex], [c.wheelAccumulator];
    c.FireUnlockTimer(c.timers[0]);
    c.HandleWheel(150.0);
    indices, residues := indices + [c.currentIndex], residues + [c.wheelAccumulator];
  }

  /**
   * The lock does not keep the drag offset at zero: a key press during a drag
   * starts a transition, and a later pointer move still offsets the stack.
   */
  method KeyDuringDragScenario() returns (locked: bool, offset: real, index: int)
    ensures locked && offset == 50.0 && index == 1
  {
    var c := new CarouselState();
    c.PointerDown(100.0);
    c.KeyDown("ArrowDown");
    c.PointerMove(150.0);
    locked, offset, index := c.isAnimating, c.dragOffset, c.currentIndex;
  }
}
