/**
 * Late-night mode: the hour rule, the once-a-minute check that follows the
 * clock, the manual toggle, and the `late-night` class on the document root.
 */
module LateNightMode {

  /** `hour >= 22 || hour < 6`: ten at night to six in the morning. */
  predicate IsNight(hour: int)
    requires 0 <= hour < 24
  {
    hour >= 22 || hour < 6
  }

  /** The night is the eight hours counted on from 22:00 round midnight. */
  lemma NightIsEightHoursFromTen(hour: int)
    requires 0 <= hour < 24
    ensures IsNight(hour) <==> (hour + 2) % 24 < 8
  {
  }

  class LateNightMode {
    var isLateNight: bool
    var showNotification: bool
    /** Whether the document root carries the `late-night` class. */
    var nightClass: bool
    /** The values reported to `onModeChange`, oldest first. */
    var reported: seq<bool>
    /** How many five-second hide timers are still pending. */
    var pendingHides: nat

    /** The class follows the flag once the effect on `isLateNight` has run. */
    predicate Valid()
      reads this
    {
      nightClass == isLateNight
    }

    constructor ()
      ensures Valid()
      ensures !isLateNight && !showNotification && reported == [] && pendingHides == 0
    {
      isLateNight, showNotification, nightClass, reported, pendingHides := false, false, false, [], 0;
    }

    /**
     * `checkTime` at clock hour `hour`: nothing when the hour rule already
     * agrees with the flag; otherwise the flag takes the rule's value, which is
     * reported, and entering the night shows the notification and starts its
     * hide timer.
     */
    method CheckTime(hour: int)
      requires 0 <= hour < 24 && Valid()
      modifies this
      ensures Valid()
      ensures IsNight(hour) == old(isLateNight) ==>
        isLateNight == old(isLateNight) && showNotification == old(showNotification)
        && reported == old(reported) && pendingHides == old(pendingHides)
      ensures IsNight(hour) != old(isLateNight) ==>
        isLateNight == IsNight(hour) && reported == old(reported) + [IsNight(hour)]
      ensures IsNight(hour) != old(isLateNight) && IsNight(hour) ==>
        showNotification && pendingHides == old(pendingHides) + 1
      ensures IsNight(hour) != old(isLateNight) && !IsNight(hour) ==>
        showNotification == old(showNotification) && pendingHides == old(pendingHides)
    {
      var night := IsNight(hour);
      if night != isLateNight {
        isLateNight := night;
        reported := reported + [night];
        if night {
          showNotification := true;
          pendingHides := pendingHides + 1;
        }
        nightClass := isLateNight;
      }
    }

    /** A hide timer fires. */
    method HideNotification()
      requires Valid()
      modifies this
      ensures Valid()
      ensures old(pendingHides) > 0 ==> !showNotification && pendingHides == old(pendingHides) - 1
      ensures old(pendingHides) == 0 ==> showNotification == old(showNotification) && pendingHides == 0
      ensures isLateNight == old(isLateNight) && reported == old(reported)
    {
      if pendingHides > 0 {
        showNotification := false;
        pendingHides := pendingHides - 1;
      }
    }

    /** `toggleMode`: flip the flag, report it, and set the class to match. */
    method ToggleMode()
      requires Valid()
      modifies this
      ensures Valid()
      ensures isLateNight == !old(isLateNight)
      ensures reported == old(reported) + [isLateNight]
      ensures showNotification == old(showNotification) && pendingHides == old(pendingHides)
    {
      var newMode := !isLateNight;
      isLateNight := newMode;
      reported := reported + [newMode];
      nightClass := newMode;
    }
  }

  /** Two toggles restore the mode, having reported the flipped value and then the original. */
  method ToggleTwice(m: LateNightMode)
    requires m.Valid()
    modifies m
    ensures m.Valid()
    ensures m.isLateNight == old(m.isLateNight)
    ensures m.reported == old(m.reported) + [!old(m.isLateNight), old(m.isLateNight)]
  {
    m.ToggleMode();
    m.ToggleMode();
  }

  /**
   * Two checks in the same hour act as one: the second reports nothing, shows
   * nothing and starts no further hide timer.
   */
  method CheckTwice(m: LateNightMode, hour: int)
    requires 0 <= hour < 24 && m.Valid()
    modifies m
    ensures m.Valid()
    ensures m.isLateNight == IsNight(hour)
    ensures m.reported == old(m.reported) + (if IsNight(hour) != old(m.isLateNight) then [IsNight(hour)] else [])
    ensures m.pendingHides == old(m.pendingHides) + (if IsNight(hour) && !old(m.isLateNight) then 1 else 0)
    ensures IsNight(hour) && !old(m.isLateNight) ==> m.showNotification
    ensures !(IsNight(hour) && !old(m.isLateNight)) ==> m.showNotification == old(m.showNotification)
  {
    m.CheckTime(hour);
    m.CheckTime(hour);
  }
}
