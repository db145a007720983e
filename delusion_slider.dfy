/**
 * The delusion slider: the level table searched by the slider value, the
 * five level buttons that highlight every level reached and set the value
 * when clicked.
 */
module DelusionSlider {
  import Thresholds

  datatype Level = Level(value: int, name: string, description: string, color: string)

  /** `levels`, ordered by value. */
  function Levels(): seq<Level> {
    [Level(0, "Calm Queen 👑", "Healthy and " + "balanced. " + "Suspicious.", "from-kawaii-mint " + "to-kawaii-sky"),
     Level(25, "Slightly " + "Concerned", "Normal person " + "behavior.", "from-kawaii-sky " + "to-secondary"),
     Level(50, "Overthinking " + "Champion 🏆", "Peak " + "performance " + "unlocked.", "from-secondary " + "to-kawaii-" + "lavender"),
     Level(75, "FBI Mode 🕵️‍♀️", "Checking their " + "Spotify " + "activity.", "from-kawaii-" + "lavender " + "to-primary"),
     Level(100, "Unhinged Era 🌀", "No thoughts, " + "just chaos.", "from-primary " + "to-destructive")]
  }

  /** The `value` column of `levels`. */
  function LevelValues(): seq<int> {
    [0, 25, 50, 75, 100]
  }

  lemma LevelValuesAreTheTable()
    ensures |LevelValues()| == |Levels()| == 5
    ensures forall i :: 0 <= i < 5 ==> LevelValues()[i] == Levels()[i].value
    ensures Thresholds.Ascending(LevelValues())
  {
  }

  /** The emoji on each level button. */
  function ButtonEmojis(): (r: seq<string>)
    ensures |r| == 5
  {
    ["👑", "🤔", "🏆", "🕵️‍♀️", "🌀"]
  }

  /** The index `getCurrentLevel` picks for slider value `v`. */
  function LevelIndex(v: int): (k: nat)
    ensures k < 5
  {
    Thresholds.LastAtMost(LevelValues(), v)
  }

  /** `getCurrentLevel`: the backward search over `levels`. */
  method GetCurrentLevel(v: int) returns (level: Level)
    ensures level == Levels()[LevelIndex(v)]
  {
    var k := Thresholds.FindLastAtMost(LevelValues(), v);
    LevelValuesAreTheTable();
    level := Levels()[k];
  }

  /** For a slider value of at least 0 the level is the one with the largest value not above it. */
  lemma LevelIsLatestReached(v: int)
    requires 0 <= v
    ensures Levels()[LevelIndex(v)].value <= v
    ensures forall j :: 0 <= j < 5 && Levels()[j].value <= v ==> Levels()[j].value <= Levels()[LevelIndex(v)].value
  {
    LevelValuesAreTheTable();
    Thresholds.LastAtMostIsLargestBelow(LevelValues(), v);
  }

  /** The loop finds no level, and the final `return levels[0]` is reached, exactly for negative values. */
  lemma FallbackOnlyBelowZero(v: int)
    ensures (forall j :: 0 <= j < 5 ==> v < LevelValues()[j]) <==> v < 0
    ensures v < 0 ==> LevelIndex(v) == 0
  {
    LevelValuesAreTheTable();
    Thresholds.FallbackIffBelowFirst(LevelValues(), v);
  }

  /** A higher slider value never shows an earlier level. */
  lemma LevelMonotone(v: int, w: int)
    requires v <= w
    ensures LevelIndex(v) <= LevelIndex(w)
  {
    LevelValuesAreTheTable();
    Thresholds.LastAtMostMonotone(LevelValues(), v, w);
  }

  /** Whether level button `i` is highlighted at value `v`. */
  predicate Highlighted(v: int, i: nat)
    requires i < 5
  {
    v >= LevelValues()[i]
  }

  /**
   * The highlighted buttons are a prefix: a highlighted button has every
   * earlier one highlighted, and for `v >= 0` they are exactly the buttons up
   * to the current level.
   */
  lemma HighlightedPrefix(v: int)
    ensures forall i, j :: 0 <= i < j < 5 && Highlighted(v, j) ==> Highlighted(v, i)
    ensures 0 <= v ==> forall i :: 0 <= i < 5 ==> (Highlighted(v, i) <==> i <= LevelIndex(v))
  {
    LevelValuesAreTheTable();
    if 0 <= v {
      Thresholds.LastAtMostIsLargestBelow(LevelValues(), v);
    }
  }

  /** The value a click on button `i` sets selects level `i`. */
  lemma ClickSelectsLevel(i: nat)
    requires i < 5
    ensures LevelIndex(Levels()[i].value) == i
  {
    LevelValuesAreTheTable();
    Thresholds.LastAtMostAtThreshold(LevelValues(), i);
  }

  /** The slider value, which the page owns and the slider reports changes to. */
  class Slider {
    var value: int

    /** The page starts at 50. */
    constructor ()
      ensures value == 50
    {
      value := 50;
    }

    /** Dragging the slider, whose range is 0 to 100 in steps of 1. */
    method Slide(v: int)
      requires 0 <= v <= 100
      modifies this
      ensures value == v
    {
      value := v;
    }

    /** Clicking level button `i`. */
    method ClickLevel(i: nat)
      requires i < 5
      modifies this
      ensures value == Levels()[i].value
      ensures CurrentLevel() == Levels()[i]
    {
      LevelValuesAreTheTable();
      value := Levels()[i].value;
      ClickSelectsLevel(i);
    }

    /** The level shown. */
    function CurrentLevel(): Level
      reads this
    {
      Levels()[LevelIndex(value)]
    }
  }
}
