/**
 * The "seen" panic timer: the stage table searched by elapsed seconds, the
 * `HH:MM:SS` formatter, and the timer state updated by start, tick and stop.
 */
module SeenPanicTimer {
  import Js
  import Thresholds

  datatype Stage = Stage(time: nat, name: string, emoji: string, color: string)

  /** `stages`, ordered by threshold. */
  function Stages(): seq<Stage> {
    [Stage(0, "Calm", "😌", "from-kawaii-mint " + "to-kawaii-sky"),
     Stage(60, "Slightly " + "Concerned", "🤔", "from-kawaii-sky " + "to-secondary"),
     Stage(300, "Mild Panic", "😰", "from-secondary " + "to-kawaii-lavender"),
     Stage(600, "Full Spiral", "😱", "from-kawaii-" + "lavender " + "to-primary"),
     Stage(1800, "Accepted Fate", "💀", "from-primary " + "to-destructive"),
     Stage(3600, "Ghosted Era", "👻", "from-destructive " + "to-foreground")]
  }

  /** The `time` column of `stages`. */
  function StageTimes(): seq<int> {
    [0, 60, 300, 600, 1800, 3600]
  }

  lemma StageTimesAreTheTable()
    ensures |StageTimes()| == |Stages()| == 6
    ensures forall i :: 0 <= i < 6 ==> StageTimes()[i] == Stages()[i].time
    ensures Thresholds.Ascending(StageTimes())
  {
  }

  /** `panicMessages`. */
  function PanicMessages(): (msgs: seq<string>)
    ensures |msgs| == 14
  {
    ["Breathe. You are " + "still hot. 💅",
     "They're probably " + "sleeping... or " + "ignoring.",
     "They saw it. " + "They're just " + "building suspense.",
     "Maybe their " + "phone died. At " + "87%.",
     "They're " + "definitely " + "drafting a " + "response. For 3 " + "hours.",
     "Plot twist: " + "they're showing " + "their friends. 📱",
     "Their wifi is " + "probably bad. " + "Very bad. For " + "hours.",
     "They're thinking " + "of the PERFECT " + "reply. Sure.",
     "Mercury is in " + "retrograde. " + "Blame the stars. ✨",
     "You're worth " + "more than a " + "response. But " + "also... WHERE IS " + "IT?",
     "Stay calm. " + "Panicking won't " + "help. (It will)",
     "They forgor 💀",
     "This is a test. " + "You're failing. " + "Gracefully.",
     "Time moves " + "slower when " + "you're anxious. " + "Science."]
  }

  /** The index `getCurrentStage` picks for `elapsed` seconds. */
  function StageIndex(elapsed: int): (k: nat)
    ensures k < 6
  {
    Thresholds.LastAtMost(StageTimes(), elapsed)
  }

  /** `getCurrentStage`: the backward search over `stages`. */
  method GetCurrentStage(elapsed: int) returns (stage: Stage)
    ensures stage == Stages()[StageIndex(elapsed)]
  {
    var k := Thresholds.FindLastAtMost(StageTimes(), elapsed);
    StageTimesAreTheTable();
    stage := Stages()[k];
  }

  /** For a non-negative elapsed time the stage is the one with the largest threshold not above it. */
  lemma StageIsLatestReached(elapsed: int)
    requires 0 <= elapsed
    ensures Stages()[StageIndex(elapsed)].time <= elapsed
    ensures forall j :: 0 <= j < 6 && Stages()[j].time <= elapsed ==> Stages()[j].time <= Stages()[StageIndex(elapsed)].time
  {
    StageTimesAreTheTable();
    Thresholds.LastAtMostIsLargestBelow(StageTimes(), elapsed);
  }

  /** More elapsed time never means an earlier stage. */
  lemma StageMonotone(x: int, y: int)
    requires x <= y
    ensures StageIndex(x) <= StageIndex(y)
  {
    StageTimesAreTheTable();
    Thresholds.LastAtMostMonotone(StageTimes(), x, y);
  }

  /** 59 seconds is still the first stage, 60 the second, and an hour or more the last. */
  lemma StageBoundaries(elapsed: int)
    ensures StageIndex(59) == 0 && StageIndex(60) == 1
    ensures elapsed >= 3600 ==> StageIndex(elapsed) == 5
  {
    StageTimesAreTheTable();
    Thresholds.LastAtMostAtThreshold(StageTimes(), 1);
    Thresholds.LastAtMostAtThreshold(StageTimes(), 5);
    Thresholds.FallbackIffBelowFirst(StageTimes(), 59);
    StageMonotone(59, 60);
    if elapsed >= 3600 {
      StageMonotone(3600, elapsed);
    }
  }

  /** Those stages are Calm, Slightly Concerned and Ghosted Era. */
  lemma BoundaryStageNames()
    ensures Stages()[0].name == "Calm"
    ensures Stages()[1].name == "Slightly Concerned"
    ensures Stages()[5].name == "Ghosted Era"
  {
  }

  // ---------------------------------------------------------------------------
  // formatTime
  // ---------------------------------------------------------------------------

  datatype Clock = Clock(hrs: nat, mins: nat, secs: nat)

  /** The three fields `formatTime` computes. */
  function ClockOf(seconds: nat): (c: Clock)
    ensures c.hrs * 3600 + c.mins * 60 + c.secs == seconds
    ensures c.mins < 60 && c.secs < 60
  {
    Clock(seconds / 3600, (seconds % 3600) / 60, seconds % 60)
  }

  /** `n.toString().padStart(2, '0')`. */
  function TwoDigits(n: nat): string {
    Js.PadStart(Js.Digits(n), 2, '0')
  }

  /** `formatTime`. */
  function FormatTime(seconds: nat): string {
    var c := ClockOf(seconds);
    TwoDigits(c.hrs) + ":" + TwoDigits(c.mins) + ":" + TwoDigits(c.secs)
  }

  lemma DigitsBelowHundred(n: nat)
    requires n < 100
    ensures |Js.Digits(n)| <= 2
  {
  }

  predicate AllDigits(s: string) {
    forall i :: 0 <= i < |s| ==> Js.IsDigit(s[i])
  }

  /** Where the two colons of `h:m:s` fall when the last two fields have two characters. */
  lemma ColonPositions(h: string, m: string, s: string)
    requires |h| >= 2 && |m| == 2 && |s| == 2
    ensures var r := h + ":" + m + ":" + s; var n := |r|;
      n >= 8 && r[n - 3] == ':' && r[n - 6] == ':'
      && r[..n - 6] == h && r[n - 5..n - 3] == m && r[n - 2..] == s
  {
    var r := h + ":" + m + ":" + s;
    var n := |r|;
    assert r[..n - 6] == h;
    assert r[n - 5..n - 3] == m;
    assert r[n - 2..] == s;
  }

  /** A padded field reads back as its number, in exactly two characters below 100. */
  lemma TwoDigitsReadsBack(n: nat)
    ensures |TwoDigits(n)| >= 2 && AllDigits(TwoDigits(n))
    ensures n < 100 ==> |TwoDigits(n)| == 2
    ensures Js.ParseDecimal(TwoDigits(n)) == n
  {
    if n < 100 {
      DigitsBelowHundred(n);
    }
    Js.ParsePaddedDigits(n, 2);
  }

  /**
   * Reading `formatTime`'s output back: the last two fields are two digits
   * below 60, the hour field has at least two digits, and the three fields
   * add back up to the seconds.
   */
  lemma FormatTimeReadsBack(seconds: nat)
    ensures var r := FormatTime(seconds); var n := |r|;
      n >= 8 && r[n - 3] == ':' && r[n - 6] == ':'
      && AllDigits(r[..n - 6]) && AllDigits(r[n - 5..n - 3]) && AllDigits(r[n - 2..])
      && Js.ParseDecimal(r[..n - 6]) * 3600 + Js.ParseDecimal(r[n - 5..n - 3]) * 60 + Js.ParseDecimal(r[n - 2..]) == seconds
      && Js.ParseDecimal(r[n - 5..n - 3]) < 60 && Js.ParseDecimal(r[n - 2..]) < 60
  {
    var c := ClockOf(seconds);
    TwoDigitsReadsBack(c.hrs);
    TwoDigitsReadsBack(c.mins);
    TwoDigitsReadsBack(c.secs);
    ColonPositions(TwoDigits(c.hrs), TwoDigits(c.mins), TwoDigits(c.secs));
  }

  // ---------------------------------------------------------------------------
  // The timer
  // ---------------------------------------------------------------------------

  /**
   * The elapsed seconds `startPanic` stores: `Math.max(0, Math.floor(diffMs / 1000))`
   * for the difference between now and the seen moment, in milliseconds.
   */
  function StartElapsed(nowMs: int, seenMs: int): (e: nat)
    ensures nowMs < seenMs ==> e == 0
    ensures seenMs <= nowMs ==> e * 1000 <= nowMs - seenMs < e * 1000 + 1000
  {
    var diff := (nowMs - seenMs) / 1000;
    if diff < 0 then 0 else diff
  }

  class PanicTimer {
    var seenTime: string
    var isRunning: bool
    var elapsedSeconds: nat
    var currentMessage: string
    /** Whether the one-second and four-second intervals are registered. */
    var ticking: bool

    constructor ()
      ensures seenTime == "" && !isRunning && elapsedSeconds == 0 && currentMessage == "" && !ticking
    {
      seenTime, isRunning, elapsedSeconds, currentMessage, ticking := "", false, 0, "", false;
    }

    /** The time input's `onChange`. */
    method SetSeenTime(t: string)
      modifies this
      ensures seenTime == t
      ensures isRunning == old(isRunning) && elapsedSeconds == old(elapsedSeconds)
      ensures currentMessage == old(currentMessage) && ticking == old(ticking)
    {
      seenTime := t;
    }

    /** Whether the start button is enabled. */
    predicate CanStart()
      reads this
    {
      seenTime != ""
    }

    /**
     * `startPanic`: nothing without a seen time; otherwise the clamped elapsed
     * seconds, a random message and both intervals. The clock reading and the
     * seen moment come in as milliseconds, `r` stands for `Math.random()`.
     */
    method StartPanic(nowMs: int, seenMs: int, r: real)
      requires 0.0 <= r < 1.0
      modifies this
      ensures seenTime == old(seenTime)
      ensures old(seenTime) == "" ==>
        isRunning == old(isRunning) && elapsedSeconds == old(elapsedSeconds)
        && currentMessage == old(currentMessage) && ticking == old(ticking)
      ensures old(seenTime) != "" ==>
        isRunning && ticking && elapsedSeconds == StartElapsed(nowMs, seenMs)
        && currentMessage == Js.RandomItem(PanicMessages(), r)
    {
      if seenTime == "" {
        return;
      }
      elapsedSeconds := StartElapsed(nowMs, seenMs);
      isRunning := true;
      currentMessage := Js.RandomItem(PanicMessages(), r);
      ticking := true;
    }

    /** The one-second interval: one more second, while it is registered. */
    method Tick()
      modifies this
      ensures elapsedSeconds == if old(ticking) then old(elapsedSeconds) + 1 else old(elapsedSeconds)
      ensures seenTime == old(seenTime) && isRunning == old(isRunning)
      ensures currentMessage == old(currentMessage) && ticking == old(ticking)
    {
      if ticking {
        elapsedSeconds := elapsedSeconds + 1;
      }
    }

    /** The four-second interval: a fresh random message, while it is registered. */
    method RotateMessage(r: real)
      requires 0.0 <= r < 1.0
      modifies this
      ensures currentMessage == if old(ticking) then Js.RandomItem(PanicMessages(), r) else old(currentMessage)
      ensures seenTime == old(seenTime) && isRunning == old(isRunning)
      ensures elapsedSeconds == old(elapsedSeconds) && ticking == old(ticking)
    {
      if ticking {
        currentMessage := Js.RandomItem(PanicMessages(), r);
      }
    }

    /** `stopPanic`: back to the form, both intervals cleared; the elapsed count stays. */
    method StopPanic()
      modifies this
      ensures !isRunning && !ticking
      ensures seenTime == old(seenTime) && elapsedSeconds == old(elapsedSeconds)
      ensures currentMessage == old(currentMessage)
    {
      isRunning := false;
      ticking := false;
    }

    /** The stage shown while running. */
    function CurrentStage(): Stage
      reads this
    {
      Stages()[StageIndex(elapsedSeconds)]
    }
  }

  /** Every message `startPanic` or the four-second interval shows is one of `panicMessages`. */
  lemma MessagesFromTheList(r: real)
    requires 0.0 <= r < 1.0
    ensures Js.RandomItem(PanicMessages(), r) in PanicMessages()
  {
    Js.RandomItemInList(PanicMessages(), r);
  }
}
