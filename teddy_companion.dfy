/**
 * The mood companion widget, which carries its own copy of the Teddy page's
 * keyword table, response table, affirmations and `analyzeMood`; its copy of
 * `analyzeMood` is declared with a return type that admits `null`.
 *
 * The copy is modelled as written and then shown to agree with the page's
 * tables, so both classifiers give the same mood for every text.
 */
module TeddyCompanion {
  import opened Wrappers
  import Js
  import Teddy

  type Mood = Teddy.Mood

  function Keywords(m: Mood): seq<string> {
    match m
    case Calm => CalmKeywords()
    case Happy => HappyKeywords()
    case Sad => SadKeywords()
    case Anxious => AnxiousKeywords()
    case Angry => AngryKeywords()
    case Confused => ConfusedKeywords()
  }

  function CalmKeywords(): seq<string> {
    ["okay", "fine", "chill", "relaxed", "peaceful", "good", "alright", "neutral", "meh", "content", "steady"]
  }

  function HappyKeywords(): seq<string> {
    ["happy", "excited", "great", "amazing", "wonderful", "love", "yay", "omg", "best", "awesome", "joy", "fun", "grateful", "blessed", "thrilled"]
  }

  function SadKeywords(): seq<string> {
    ["sad", "crying", "hurt", "lonely", "tired", "exhausted", "miss", "broken", "pain", "empty", "numb", "depressed", "heartbroken", "alone", "hopeless"]
  }

  function AnxiousKeywords(): seq<string> {
    ["anxious", "worried", "scared", "overthinking", "panic", "nervous", "stress", "afraid", "what if", "cant stop thinking", "restless", "uneasy"]
  }

  function AngryKeywords(): seq<string> {
    ["angry", "mad", "frustrated", "annoyed", "irritated", "hate", "upset", "furious", "pissed", "rage", "bitter"]
  }

  function ConfusedKeywords(): seq<string> {
    ["confused", "unsure", "idk", "dont know", "don't know", "mixed", "unclear", "lost", "weird", "strange", "uncertain", "torn"]
  }

  /** This file's own `moodResponses`: every mood has at least one message and one animation tag. */
  function Responses(m: Mood): (r: Teddy.Response)
    ensures |r.messages| > 0
  {
    match m
    case Calm => CalmResponse()
    case Happy => HappyResponse()
    case Sad => SadResponse()
    case Anxious => AnxiousResponse()
    case Angry => AngryResponse()
    case Confused => ConfusedResponse()
  }

  function CalmResponse(): Teddy.Response {
    Teddy.Response([
      "Hi… I'm here " + "with you 🧸🤍",
      "Just sitting " + "here with you " + "🧸☁️",
      "Peace looks " + "good on you 🧸✨",
      "This quiet " + "moment is yours " + "🧸🌷",
      "I'm glad you're " + "okay 🧸🤍"
    ], "wave")
  }

  function HappyResponse(): Teddy.Response {
    Teddy.Response([
      "You sound happy " + "today 🧸✨ I like " + "this energy",
      "Your joy makes " + "me bounce 🧸💫",
      "This is the " + "energy we love " + "🧸🎀",
      "You're glowing " + "right now 🧸✨",
      "Keep shining, " + "you deserve " + "this 🧸🌟"
    ], "jump")
  }

  function SadResponse(): Teddy.Response {
    Teddy.Response([
      "Come here 🧸🤍 " + "You don't have " + "to be okay " + "right now",
      "I'm giving you " + "the biggest hug " + "🧸💕",
      "It's okay to " + "feel this way. " + "I'm here 🧸🤍",
      "You're not " + "alone in this " + "🧸☁️",
      "Rest your heart " + "here 🧸🌙",
      "Sometimes tears " + "are just " + "feelings " + "finding their " + "way out 🧸🤍"
    ], "hug")
  }

  function AnxiousResponse(): Teddy.Response {
    Teddy.Response([
      "Let's breathe " + "together 🧸🤍 One " + "step at a time",
      "In… and out… " + "you're doing " + "great 🧸☁️",
      "Your worries " + "are valid, but " + "you're safe " + "right now 🧸🤍",
      "I'll stay here " + "while you " + "breathe 🧸🌷",
      "The storm will " + "pass. I promise " + "🧸✨",
      "You don't have " + "to figure it " + "all out today 🧸🤍"
    ], "breathe")
  }

  function AngryResponse(): Teddy.Response {
    Teddy.Response([
      "It's okay to " + "feel this way " + "🧸🤍 I'm listening",
      "Your feelings " + "are valid 🧸☁️",
      "I'm sitting " + "with you " + "through this 🧸🤍",
      "You don't have " + "to explain. I " + "understand 🧸🌙",
      "Let it out. " + "This is a safe " + "space 🧸🤍"
    ], "sit")
  }

  function ConfusedResponse(): Teddy.Response {
    Teddy.Response([
      "It's okay to " + "not have " + "answers yet 🧸🤍",
      "Uncertainty is " + "just a chapter, " + "not the whole " + "story 🧸☁️",
      "You don't need " + "to have it all " + "figured out 🧸✨",
      "Sometimes the " + "path reveals " + "itself slowly 🧸🌷",
      "Being unsure " + "doesn't make " + "you lost 🧸🤍"
    ], "tilt")
  }

  /** This file's own `comfortingAffirmations`. */
  function Affirmations(): seq<string> {
    [
      "You are enough, " + "exactly as you " + "are 🤍",
      "Your feelings " + "matter 🌷",
      "It's okay to " + "take things " + "slow ☁️",
      "You're doing " + "better than you " + "think ✨",
      "Rest is " + "productive too 🌙",
      "You deserve " + "softness and " + "care 🎀",
      "Small steps " + "still count 💫",
      "Your presence " + "is a gift 🧸",
      "Be gentle with " + "yourself today 🤍",
      "You're allowed " + "to just exist 🌷"
    ]
  }
  // ---------------------------------------------------------------------------
  // Agreement with the Teddy page
  // ---------------------------------------------------------------------------

  /** The two keyword tables hold the same lists. */
  lemma KeywordsAgree(m: Mood)
    ensures Keywords(m) == Teddy.Keywords(m)
  {
    match m
    case Calm => assert CalmKeywords() == Teddy.CalmKeywords();
    case Happy => assert HappyKeywords() == Teddy.HappyKeywords();
    case Sad => assert SadKeywords() == Teddy.SadKeywords();
    case Anxious => assert AnxiousKeywords() == Teddy.AnxiousKeywords();
    case Angry => assert AngryKeywords() == Teddy.AngryKeywords();
    case Confused => assert ConfusedKeywords() == Teddy.ConfusedKeywords();
  }

  /** The two response tables hold the same messages and animation tags. */
  lemma ResponsesAgree(m: Mood)
    ensures Responses(m) == Teddy.Responses(m)
  {
    match m
    case Calm => assert CalmResponse() == Teddy.CalmResponse();
    case Happy => assert HappyResponse() == Teddy.HappyResponse();
    case Sad => assert SadResponse() == Teddy.SadResponse();
    case Anxious => assert AnxiousResponse() == Teddy.AnxiousResponse();
    case Angry => assert AngryResponse() == Teddy.AngryResponse();
    case Confused => assert ConfusedResponse() == Teddy.ConfusedResponse();
  }

  /** The two affirmation lists are the same. */
  lemma AffirmationsAgree()
    ensures Affirmations() == Teddy.Affirmations()
  {
  }

  /** Both classifiers give the same mood for every text. */
  lemma ClassifiersAgree(text: string)
    ensures Teddy.Classify(Keywords, text) == Teddy.Classify(Teddy.Keywords, text)
  {
    forall m ensures Teddy.Score(Keywords, text, m) == Teddy.Score(Teddy.Keywords, text, m) {
      KeywordsAgree(m);
    }
    var a, b := Teddy.ScoreList(Keywords, text), Teddy.ScoreList(Teddy.Keywords, text);
    forall i | 0 <= i < |a| ensures a[i] == b[i] {
      assert a[Teddy.Rank(Teddy.MoodOrder[i])] == b[Teddy.Rank(Teddy.MoodOrder[i])];
    }
    assert a == b;
  }

  /**
   * This file's `analyzeMood`, whose declared result admits `null`: the same
   * loops as the page's copy over this file's table, and the result is never `null`.
   */
  method AnalyzeMood(text: string) returns (mood: Option<Mood>)
    ensures mood.Some?
    ensures mood == Some(Teddy.Classify(Keywords, text))
  {
    var detected := Teddy.AnalyzeMood(Keywords, text);
    mood := Some(detected);
  }

  // ---------------------------------------------------------------------------
  // The widget
  // ---------------------------------------------------------------------------

  /** The state of the companion widget. */
  class MoodCompanion {
    var input: string
    var mood: Option<Mood>
    var currentMessage: string
    var affirmation: string
    var isAnalyzing: bool
    /** The texts that scheduled analysis callbacks captured and that have not run yet, oldest first. */
    var scheduled: seq<string>

    /** While the widget is listening, no mood is shown and an analysis is pending. */
    predicate Valid()
      reads this
    {
      isAnalyzing ==> mood == None && scheduled != []
    }

    /** The result card is on screen: a mood is set and no analysis is running. */
    predicate ShowsResult()
      reads this
    {
      mood.Some? && !isAnalyzing
    }

    constructor ()
      ensures Valid()
      ensures input == "" && mood == None && currentMessage == "" && affirmation == ""
      ensures !isAnalyzing && scheduled == []
    {
      input, mood, currentMessage, affirmation := "", None, "", "";
      isAnalyzing, scheduled := false, [];
    }

    /** The text area's `onChange`. */
    method SetInput(text: string)
      requires Valid()
      modifies this
      ensures Valid()
      ensures input == text
      ensures mood == old(mood) && currentMessage == old(currentMessage) && affirmation == old(affirmation)
      ensures isAnalyzing == old(isAnalyzing) && scheduled == old(scheduled)
    {
      input := text;
    }

    /** The share button is enabled when nothing is being analysed and the input is not blank. */
    predicate CanAnalyze()
      reads this
    {
      !isAnalyzing && !Js.IsBlank(input)
    }

    /**
     * `handleAnalyze`: a blank input changes nothing; otherwise the widget goes
     * into its listening state and an analysis of the current input is scheduled.
     */
    method HandleAnalyze()
      requires Valid()
      modifies this
      ensures Valid()
      ensures Js.IsBlank(old(input)) ==> unchanged(this)
      ensures !Js.IsBlank(old(input)) ==>
                isAnalyzing && mood == None && scheduled == old(scheduled) + [old(input)]
                && input == old(input) && currentMessage == old(currentMessage) && affirmation == old(affirmation)
    {
      Js.TrimEmptyIffBlank(input);
      if Js.Trim(input) == [] {
        return;
      }
      isAnalyzing := true;
      mood := None;
      scheduled := scheduled + [input];
    }

    /**
     * The delayed callback: it classifies the captured text with this file's
     * `analyzeMood` and shows a random message of that mood and a random affirmation.
     */
    method AnalysisDone(rMessage: real, rAffirmation: real)
      requires Valid()
      requires scheduled != []
      requires 0.0 <= rMessage < 1.0 && 0.0 <= rAffirmation < 1.0
      modifies this
      ensures Valid()
      ensures mood == Some(Teddy.Classify(Keywords, old(scheduled[0])))
      ensures currentMessage == Js.RandomItem(Responses(mood.value).messages, rMessage)
      ensures affirmation == Js.RandomItem(Affirmations(), rAffirmation)
      ensures !isAnalyzing && scheduled == old(scheduled[1..]) && input == old(input)
      ensures ShowsResult()
    {
      var detected := AnalyzeMood(scheduled[0]);
      mood := detected;
      currentMessage := Js.RandomItem(Responses(detected.value).messages, rMessage);
      affirmation := Js.RandomItem(Affirmations(), rAffirmation);
      isAnalyzing := false;
      scheduled := scheduled[1..];
    }

    /** The animation tag handed to the bear: the mood's tag, or none before any mood. */
    function BearAnimation(): string
      reads this
    {
      if mood.Some? then Responses(mood.value).animation else ""
    }
  }
}
