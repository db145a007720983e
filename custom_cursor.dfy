/**
 * The custom cursor: the pointer position, a trail of the last twelve
 * points, and throttled sparkles numbered by a counter and trimmed by a
 * periodic cleanup.
 */
module CustomCursor {
  import Js

  datatype Point = Point(x: int, y: int)

  /** A sparkle, jittered by up to 10 pixels either way around the pointer. */
  datatype Sparkle = Sparkle(id: nat, x: real, y: real)

  /** The trail length, `tail.slice(-12)`. */
  const TailLength: nat := 12
  /** The sparkles kept before a new one, `prev.slice(-8)`. */
  const SparklesKept: nat := 8
  /** The sparkles the cleanup keeps, `prev.slice(-5)`. */
  const CleanupKept: nat := 5
  /** The minimum gap between sparkles, in milliseconds. */
  const SparkleGap: int := 50

  /** Sparkle ids strictly increase along the list and stay below the counter. */
  predicate IdsBelow(sparkles: seq<Sparkle>, next: nat) {
    (forall i, j :: 0 <= i < j < |sparkles| ==> sparkles[i].id < sparkles[j].id)
    && (forall i :: 0 <= i < |sparkles| ==> sparkles[i].id < next)
  }

  /** Any run of consecutive sparkles keeps the id order and bound. */
  lemma IdsBelowSlice(sparkles: seq<Sparkle>, next: nat, lo: nat)
    requires IdsBelow(sparkles, next) && lo <= |sparkles|
    ensures IdsBelow(sparkles[lo..], next)
  {
    var s := sparkles[lo..];
    assert forall i :: 0 <= i < |s| ==> s[i] == sparkles[lo + i];
  }

  /** Keeping the last eight sparkles and adding one with the counter's id keeps the order, with the counter moved on. */
  lemma PushKeepsIds(sparkles: seq<Sparkle>, next: nat, s: Sparkle)
    requires IdsBelow(sparkles, next) && s.id == next
    ensures |Js.TakeLast(sparkles, SparklesKept) + [s]| <= SparklesKept + 1
    ensures IdsBelow(Js.TakeLast(sparkles, SparklesKept) + [s], next + 1)
  {
    var kept := Js.TakeLast(sparkles, SparklesKept);
    IdsBelowSlice(sparkles, next, |sparkles| - |kept|);
    var r := kept + [s];
    assert forall i :: 0 <= i < |kept| ==> r[i] == kept[i];
  }

  /** The sparkle placed for pointer `p` with draws `rx`, `ry` of `Math.random()`. */
  function NewSparkle(id: nat, p: Point, rx: real, ry: real): (s: Sparkle)
    requires 0.0 <= rx < 1.0 && 0.0 <= ry < 1.0
    ensures s.id == id
    ensures p.x as real - 10.0 <= s.x < p.x as real + 10.0
    ensures p.y as real - 10.0 <= s.y < p.y as real + 10.0
  {
    Sparkle(id, p.x as real + (rx - 0.5) * 20.0, p.y as real + (ry - 0.5) * 20.0)
  }

  class CustomCursor {
    var position: Point
    var tail: seq<Point>
    var sparkles: seq<Sparkle>
    var isPointer: bool
    var sparkleId: nat
    var lastSparkleTime: int

    predicate Valid()
      reads this
    {
      |tail| <= TailLength && |sparkles| <= SparklesKept + 1 && IdsBelow(sparkles, sparkleId)
    }

    constructor ()
      ensures Valid()
      ensures position == Point(0, 0) && tail == [] && sparkles == [] && !isPointer
      ensures sparkleId == 0 && lastSparkleTime == 0
    {
      position, tail, sparkles, isPointer := Point(0, 0), [], [], false;
      sparkleId, lastSparkleTime := 0, 0;
    }

    /**
     * `updateCursor` for a move to `p` at time `now`: the position and the
     * trail follow the pointer; when more than 50 ms have passed since the last
     * sparkle a new one takes the next id; `clickable` says whether the target
     * lies inside a clickable element.
     */
    method UpdateCursor(p: Point, now: int, rx: real, ry: real, clickable: bool)
      requires 0.0 <= rx < 1.0 && 0.0 <= ry < 1.0
      requires Valid()
      modifies this
      ensures Valid()
      ensures position == p && isPointer == clickable
      ensures tail == Js.TakeLast(old(tail) + [p], TailLength)
      ensures now - old(lastSparkleTime) > SparkleGap ==>
        lastSparkleTime == now && sparkleId == old(sparkleId) + 1
        && sparkles == Js.TakeLast(old(sparkles), SparklesKept) + [NewSparkle(old(sparkleId), p, rx, ry)]
      ensures now - old(lastSparkleTime) <= SparkleGap ==>
        lastSparkleTime == old(lastSparkleTime) && sparkleId == old(sparkleId) && sparkles == old(sparkles)
    {
      position := p;
      tail := Js.TakeLast(tail + [p], TailLength);
      if now - lastSparkleTime > SparkleGap {
        lastSparkleTime := now;
        var s := NewSparkle(sparkleId, p, rx, ry);
        PushKeepsIds(sparkles, sparkleId, s);
        sparkleId := sparkleId + 1;
        sparkles := Js.TakeLast(sparkles, SparklesKept) + [s];
      }
      isPointer := clickable;
    }

    /** The 200 ms cleanup: keep the last five sparkles. */
    method Cleanup()
      requires Valid()
      modifies this
      ensures Valid()
      ensures sparkles == Js.TakeLast(old(sparkles), CleanupKept)
      ensures position == old(position) && tail == old(tail) && isPointer == old(isPointer)
      ensures sparkleId == old(sparkleId) && lastSparkleTime == old(lastSparkleTime)
    {
      IdsBelowSlice(sparkles, sparkleId, |sparkles| - |Js.TakeLast(sparkles, CleanupKept)|);
      sparkles := Js.TakeLast(sparkles, CleanupKept);
    }
  }

  /** After a move the trail ends at the new point, and the points before it are the newest old ones in order. */
  lemma TailEndsAtPointer(tail: seq<Point>, p: Point)
    ensures var t := Js.TakeLast(tail + [p], TailLength);
      0 < |t| <= TailLength && t[|t| - 1] == p && t[..|t| - 1] == tail[|tail| - (|t| - 1)..]
  {
    var t := Js.TakeLast(tail + [p], TailLength);
    assert t[..|t| - 1] == (tail + [p])[|tail| + 1 - |t|..|tail|];
  }

  /** The distinctness of sparkle ids follows from their order. */
  lemma IdsDistinct(sparkles: seq<Sparkle>, next: nat)
    requires IdsBelow(sparkles, next)
    ensures forall i, j :: 0 <= i < |sparkles| && 0 <= j < |sparkles| && i != j ==> sparkles[i].id != sparkles[j].id
  {
  }
}
