/**
 * The keyword mood classifier of the Teddy page: the keyword and response
 * tables, `analyzeMood`, and the page state that
 * `handleAnalyze` and its delayed callback update.
 *
 * Scoring and picking are stated over any keyword table, so that the copy of
 * the classifier in the mood companion widget can be compared with this one.
 */
module Teddy {
  import opened Wrappers
  import Js

  datatype Mood = Calm | Happy | Sad | Anxious | Angry | Confused

  /** The key order of `moodKeywords` and of the `moodScores` record, which `Object.entries` follows. */
  const MoodOrder: seq<Mood> := [Calm, Happy, Sad, Anxious, Angry, Confused]

  /** The position of a mood in `MoodOrder`. */
  function Rank(m: Mood): (i: nat)
    ensures i < |MoodOrder| && MoodOrder[i] == m
  {
    match m
    case Calm => 0
    case Happy => 1
    case Sad => 2
    case Anxious => 3
    case Angry => 4
    case Confused => 5
  }

  /** A keyword list per mood. */
  type KeywordTable = Mood -> seq<string>

  /** `moodKeywords`. */
  function Keywords(m: Mood): seq<string> {
    match m
    case Calm => CalmKeywords()
    case Happy => HappyKeywords()
    case Sad => SadKeywords()
    case Anxious => AnxiousKeywords()
    case Angry => AngryKeywords()
    case Confused => ConfusedKeywords()
  }

  function CalmKeywords(): seq<string> {
    ["okay", "fine", "chill", "relaxed", "peaceful", "good", "alright", "neutral", "meh", "content", "steady"]
  }

  function HappyKeywords(): seq<string> {
    ["happy", "excited", "great", "amazing", "wonderful", "love", "yay", "omg", "best", "awesome", "joy", "fun", "grateful", "blessed", "thrilled"]
  }

  function SadKeywords(): seq<string> {
    ["sad", "crying", "hurt", "lonely", "tired", "exhausted", "miss", "broken", "pain", "empty", "numb", "depressed", "heartbroken", "alone", "hopeless"]
  }

  function AnxiousKeywords(): seq<string> {
    ["anxious", "worried", "scared", "overthinking", "panic", "nervous", "stress", "afraid", "what if", "cant stop thinking", "restless", "uneasy"]
  }

  function AngryKeywords(): seq<string> {
    ["angry", "mad", "frustrated", "annoyed", "irritated", "hate", "upset", "furious", "pissed", "rage", "bitter"]
  }

  function ConfusedKeywords(): seq<string> {
    ["confused", "unsure", "idk", "dont know", "don't know", "mixed", "unclear", "lost", "weird", "strange", "uncertain", "torn"]
  }

  datatype Response = Response(messages: seq<string>, animation: string)

  /** `moodResponses`: every mood has at least one message and one animation tag. */
  function Responses(m: Mood): (r: Response)
    ensures |r.messages| > 0
  {
    match m
    case Calm => CalmResponse()
    case Happy => HappyResponse()
    case Sad => SadResponse()
    case Anxious => AnxiousResponse()
    case Angry => AngryResponse()
    case Confused => ConfusedResponse()
  }

  function CalmResponse(): Response {
    Response([
      "Hi… I'm here " + "with you 🧸🤍",
      "Just sitting " + "here with you " + "🧸☁️",
      "Peace looks " + "good on you 🧸✨",
      "This quiet " + "moment is yours " + "🧸🌷",
      "I'm glad you're " + "okay 🧸🤍"
    ], "wave")
  }

  function HappyResponse(): Response {
    Response([
      "You sound happy " + "today 🧸✨ I like " + "this energy",
      "Your joy makes " + "me bounce 🧸💫",
      "This is the " + "energy we love " + "🧸🎀",
      "You're glowing " + "right now 🧸✨",
      "Keep shining, " + "you deserve " + "this 🧸🌟"
    ], "jump")
  }

  function SadResponse(): Response {
    Response([
      "Come here 🧸🤍 " + "You don't have " + "to be okay " + "right now",
      "I'm giving you " + "the biggest hug " + "🧸💕",
      "It's okay to " + "feel this way. " + "I'm here 🧸🤍",
      "You're not " + "alone in this " + "🧸☁️",
      "Rest your heart " + "here 🧸🌙",
      "Sometimes tears " + "are just " + "feelings " + "finding their " + "way out 🧸🤍"
    ], "hug")
  }

  function AnxiousResponse(): Response {
    Response([
      "Let's breathe " + "together 🧸🤍 One " + "step at a time",
      "In… and out… " + "you're doing " + "great 🧸☁️",
      "Your worries " + "are valid, but " + "you're safe " + "right now 🧸🤍",
      "I'll stay here " + "while you " + "breathe 🧸🌷",
      "The storm will " + "pass. I promise " + "🧸✨",
      "You don't have " + "to figure it " + "all out today 🧸🤍"
    ], "breathe")
  }

  function AngryResponse(): Response {
    Response([
      "It's okay to " + "feel this way " + "🧸🤍 I'm listening",
      "Your feelings " + "are valid 🧸☁️",
      "I'm sitting " + "with you " + "through this 🧸🤍",
      "You don't have " + "to explain. I " + "understand 🧸🌙",
      "Let it out. " + "This is a safe " + "space 🧸🤍"
    ], "sit")
  }

  function ConfusedResponse(): Response {
    Response([
      "It's okay to " + "not have " + "answers yet 🧸🤍",
      "Uncertainty is " + "just a chapter, " + "not the whole " + "story 🧸☁️",
      "You don't need " + "to have it all " + "figured out 🧸✨",
      "Sometimes the " + "path reveals " + "itself slowly 🧸🌷",
      "Being unsure " + "doesn't make " + "you lost 🧸🤍"
    ], "tilt")
  }

  /** The animation tag of every mood. */
  lemma AnimationTags()
    ensures Responses(Calm).animation == "wave" && Responses(Happy).animation == "jump"
    ensures Responses(Sad).animation == "hug" && Responses(Anxious).animation == "breathe"
    ensures Responses(Angry).animation == "sit" && Responses(Confused).animation == "tilt"
  {
  }

  /** `comfortingAffirmations`. */
  function Affirmations(): seq<string> {
    [
      "You are enough, " + "exactly as you " + "are 🤍",
      "Your feelings " + "matter 🌷",
      "It's okay to " + "take things " + "slow ☁️",
      "You're doing " + "better than you " + "think ✨",
      "Rest is " + "productive too 🌙",
      "You deserve " + "softness and " + "care 🎀",
      "Small steps " + "still count 💫",
      "Your presence " + "is a gift 🧸",
      "Be gentle with " + "yourself today 🤍",
      "You're allowed " + "to just exist 🌷"
    ]
  }

  // ---------------------------------------------------------------------------
  // Scores
  // ---------------------------------------------------------------------------

  /** How many entries of `kws` occur in `text`, the count the inner loop reaches after `kws`. */
  function CountMatches(text: string, kws: seq<string>): (n: nat)
    ensures n <= |kws|
  {
    if kws == [] then 0
    else CountMatches(text, kws[..|kws| - 1]) + (if Js.Includes(text, kws[|kws| - 1]) then 1 else 0)
  }

  /** The score analyzeMood gives mood `m`: the number of its keywords found in the lower-cased text. */
  function Score(table: KeywordTable, text: string, m: Mood): nat {
    CountMatches(Js.ToLower(text), table(m))
  }

  /**
   * The `moodScores` record as the list of its values in key order, which is
   * what both `Object.values` and `Object.entries` walk.
   */
  function ScoreList(table: KeywordTable, text: string): (scores: seq<nat>)
    ensures |scores| == |MoodOrder|
    ensures forall m :: scores[Rank(m)] == Score(table, text, m)
  {
    seq(|MoodOrder|, i requires 0 <= i < |MoodOrder| => Score(table, text, MoodOrder[i]))
  }

  // ---------------------------------------------------------------------------
  // The maximum and the tie-break
  // ---------------------------------------------------------------------------

  /** `Math.max(...xs)` for a non-empty list. */
  function MaxOf(xs: seq<nat>): (mx: nat)
    requires 0 < |xs|
    ensures exists i :: 0 <= i < |xs| && xs[i] == mx
    ensures forall i :: 0 <= i < |xs| ==> xs[i] <= mx
  {
    if |xs| == 1 then xs[0]
    else
      var rest := MaxOf(xs[..|xs| - 1]);
      if xs[|xs| - 1] > rest then xs[|xs| - 1] else rest
  }

  /** `Object.entries(moodScores).find(([_, s]) => s === target)`, searching from position `i`. */
  function FindFrom(scores: seq<nat>, target: nat, i: nat): (r: Option<Mood>)
    requires |scores| == |MoodOrder| && i <= |scores|
    decreases |scores| - i
    ensures r.Some? ==> i <= Rank(r.value) && scores[Rank(r.value)] == target
    ensures r.Some? ==> forall k :: i <= k < Rank(r.value) ==> scores[k] != target
    ensures r.None? ==> forall k :: i <= k < |scores| ==> scores[k] != target
  {
    if i == |scores| then None
    else if scores[i] == target then
      assert Rank(MoodOrder[i]) == i;
      Some(MoodOrder[i])
    else FindFrom(scores, target, i + 1)
  }

  /** The mood analyzeMood reports for a score list: no keyword at all gives calm, otherwise the first mood with the top score. */
  function PickMood(scores: seq<nat>): (m: Mood)
    requires |scores| == |MoodOrder|
    ensures forall k :: 0 <= k < |scores| ==> scores[k] <= scores[Rank(m)]
    ensures forall k :: 0 <= k < Rank(m) ==> scores[k] < scores[Rank(m)]
  {
    var maxScore := MaxOf(scores);
    if maxScore == 0 then Calm
    else FindFrom(scores, maxScore, 0).GetOr(Calm)
  }

  /** The mood of the text under a keyword table. */
  function Classify(table: KeywordTable, text: string): Mood {
    PickMood(ScoreList(table, text))
  }

  /** `m` scores at least as much as every mood and strictly more than every mood declared before it. */
  predicate IsFirstMaximal(table: KeywordTable, text: string, m: Mood) {
    (forall o :: Score(table, text, o) <= Score(table, text, m))
    && (forall o :: Rank(o) < Rank(m) ==> Score(table, text, o) < Score(table, text, m))
  }

  /** The classifier's answer is exactly the first mood, in declaration order, with the top score. */
  lemma ClassifyIsFirstMaximal(table: KeywordTable, text: string, m: Mood)
    ensures Classify(table, text) == m <==> IsFirstMaximal(table, text, m)
  {
    var scores := ScoreList(table, text);
    var c := Classify(table, text);
    forall o ensures Score(table, text, o) <= Score(table, text, c) {
      assert scores[Rank(o)] <= scores[Rank(c)];
    }
    if IsFirstMaximal(table, text, m) {
      // an earlier mood on either side would score strictly less than the other one
      assert !(Rank(c) < Rank(m)) && !(Rank(m) < Rank(c));
    }
  }

  /**
   * A tie with calm goes to calm: whenever calm's score is the top score, the
   * answer is calm, whatever other moods share it (for instance a text with one
   * calm and one sad keyword).
   */
  lemma CalmWinsTies(table: KeywordTable, text: string)
    requires forall o :: Score(table, text, o) <= Score(table, text, Calm)
    ensures Classify(table, text) == Calm
  {
    ClassifyIsFirstMaximal(table, text, Calm);
  }

  /** When no keyword of any mood occurs in the lower-cased text, the answer is calm. */
  lemma NoKeywordIsCalm(table: KeywordTable, text: string)
    requires forall m, k :: k in table(m) ==> !Js.Includes(Js.ToLower(text), k)
    ensures Classify(table, text) == Calm
  {
    forall m ensures Score(table, text, m) == 0 {
      CountMatchesNone(Js.ToLower(text), table(m));
    }
    var scores := ScoreList(table, text);
    forall k | 0 <= k < |scores| ensures scores[k] == 0 {
      assert scores[Rank(MoodOrder[k])] == Score(table, text, MoodOrder[k]);
    }
  }

  lemma {:induction false} CountMatchesNone(text: string, kws: seq<string>)
    requires forall k :: k in kws ==> !Js.Includes(text, k)
    ensures CountMatches(text, kws) == 0
  {
    if kws != [] {
      CountMatchesNone(text, kws[..|kws| - 1]);
    }
  }

  /** Every keyword is a non-empty string. */
  lemma KeywordsNonEmpty(m: Mood)
    ensures forall k :: k in Keywords(m) ==> |k| > 0
  {
    match m
    case Calm => assert forall k :: k in CalmKeywords() ==> |k| > 0;
    case Happy => assert forall k :: k in HappyKeywords() ==> |k| > 0;
    case Sad => assert forall k :: k in SadKeywords() ==> |k| > 0;
    case Anxious => assert forall k :: k in AnxiousKeywords() ==> |k| > 0;
    case Angry => assert forall k :: k in AngryKeywords() ==> |k| > 0;
    case Confused => assert forall k :: k in ConfusedKeywords() ==> |k| > 0;
  }

  /** The empty text matches no keyword and so is calm. */
  lemma EmptyTextIsCalm()
    ensures Classify(Keywords, "") == Calm
  {
    forall m, k | k in Keywords(m) ensures !Js.Includes(Js.ToLower(""), k) {
      KeywordsNonEmpty(m);
    }
    NoKeywordIsCalm(Keywords, "");
  }

  // ---------------------------------------------------------------------------
  // Scores count distinct keywords
  // ---------------------------------------------------------------------------

  predicate NoDuplicates(kws: seq<string>) {
    forall i, j :: 0 <= i < j < |kws| ==> kws[i] != kws[j]
  }

  /** No keyword list repeats an entry. */
  lemma KeywordsHaveNoDuplicates(m: Mood)
    ensures NoDuplicates(Keywords(m))
  {
    match m
    case Calm => CalmKeywordsDistinct();
    case Happy => HappyKeywordsDistinct();
    case Sad => SadKeywordsDistinct();
    case Anxious => AnxiousKeywordsDistinct();
    case Angry => AngryKeywordsDistinct();
    case Confused => ConfusedKeywordsDistinct();
  }

  lemma CalmKeywordsDistinct()
    ensures NoDuplicates(CalmKeywords())
  {
  }

  lemma HappyKeywordsDistinct()
    ensures NoDuplicates(HappyKeywords())
  {
  }

  lemma SadKeywordsDistinct()
    ensures NoDuplicates(SadKeywords())
  {
  }

  lemma AnxiousKeywordsDistinct()
    ensures NoDuplicates(AnxiousKeywords())
  {
  }

  lemma AngryKeywordsDistinct()
    ensures NoDuplicates(AngryKeywords())
  {
  }

  lemma ConfusedKeywordsDistinct()
    ensures NoDuplicates(ConfusedKeywords())
  {
  }

  /** The keywords of `kws` found in `text`. */
  ghost function FoundKeywords(text: string, kws: seq<string>): set<string> {
    set k | k in kws && Js.Includes(text, k)
  }

  /** With no repeated keyword, the count is the number of distinct keywords found, however often each occurs. */
  lemma {:induction false} CountMatchesIsDistinctCount(text: string, kws: seq<string>)
    requires NoDuplicates(kws)
    ensures CountMatches(text, kws) == |FoundKeywords(text, kws)|
  {
    if kws != [] {
      var init, last := kws[..|kws| - 1], kws[|kws| - 1];
      assert kws == init + [last];
      CountMatchesIsDistinctCount(text, init);
      assert last !in init;
      if Js.Includes(text, last) {
        assert FoundKeywords(text, kws) == FoundKeywords(text, init) + {last};
      } else {
        assert FoundKeywords(text, kws) == FoundKeywords(text, init);
      }
    }
  }

  lemma ScoreIsDistinctKeywordsFound(text: string, m: Mood)
    ensures Score(Keywords, text, m) == |FoundKeywords(Js.ToLower(text), Keywords(m))|
  {
    KeywordsHaveNoDuplicates(m);
    CountMatchesIsDistinctCount(Js.ToLower(text), Keywords(m));
  }

  // ---------------------------------------------------------------------------
  // Case and extension
  // ---------------------------------------------------------------------------

  /** Texts that lower-case alike classify alike. */
  lemma CaseInsensitive(table: KeywordTable, a: string, b: string)
    requires Js.ToLower(a) == Js.ToLower(b)
    ensures Classify(table, a) == Classify(table, b)
  {
    assert ScoreList(table, a) == ScoreList(table, b);
  }

  /** In particular a text and its lower-cased form classify alike. */
  lemma ClassifyLowerCased(table: KeywordTable, text: string)
    ensures Classify(table, Js.ToLower(text)) == Classify(table, text)
  {
    Js.ToLowerIdempotent(text);
    CaseInsensitive(table, Js.ToLower(text), text);
  }

  lemma {:induction false} CountMatchesExtend(text: string, before: string, after: string, kws: seq<string>)
    ensures CountMatches(text, kws) <= CountMatches(before + text + after, kws)
  {
    if kws != [] {
      CountMatchesExtend(text, before, after, kws[..|kws| - 1]);
      if Js.Includes(text, kws[|kws| - 1]) {
        Js.IncludesExtend(text, kws[|kws| - 1], before, after);
      }
    }
  }

  /** Adding text before or after never lowers a mood's score. */
  lemma ExtendingNeverLowersScore(table: KeywordTable, text: string, before: string, after: string, m: Mood)
    ensures Score(table, text, m) <= Score(table, before + text + after, m)
  {
    Js.ToLowerAppend(before, text);
    Js.ToLowerAppend(before + text, after);
    CountMatchesExtend(Js.ToLower(text), Js.ToLower(before), Js.ToLower(after), table(m));
  }

  // ---------------------------------------------------------------------------
  // analyzeMood
  // ---------------------------------------------------------------------------

  /** The score list after the outer loop has handled the first `d` moods. */
  function PartialScores(table: KeywordTable, lowerText: string, d: nat): (scores: seq<nat>)
    ensures |scores| == |MoodOrder|
  {
    seq(|MoodOrder|, i requires 0 <= i < |MoodOrder| => if i < d then CountMatches(lowerText, table(MoodOrder[i])) else 0)
  }

  /**
   * `analyzeMood` over a keyword table: lower-case the text, count the
   * keywords of every mood that occur in it, then pick the mood.
   */
  method AnalyzeMood(table: KeywordTable, text: string) returns (mood: Mood)
    ensures mood == Classify(table, text)
  {
    var lowerText := Js.ToLower(text);
    var moodScores: seq<nat> := [0, 0, 0, 0, 0, 0];
    assert moodScores == PartialScores(table, lowerText, 0);
    for d := 0 to |MoodOrder|
      invariant moodScores == PartialScores(table, lowerText, d)
    {
      var keywords := table(MoodOrder[d]);
      assert keywords[..0] == [];
      for j := 0 to |keywords|
        invariant moodScores == PartialScores(table, lowerText, d)[d := CountMatches(lowerText, keywords[..j])]
      {
        assert keywords[..j + 1][..j] == keywords[..j];
        if Js.Includes(lowerText, keywords[j]) {
          moodScores := moodScores[d := moodScores[d] + 1];
        }
      }
      assert keywords[..|keywords|] == keywords;
      assert moodScores == PartialScores(table, lowerText, d + 1);
    }
    assert moodScores == ScoreList(table, text);
    mood := PickMood(moodScores);
  }

  // ---------------------------------------------------------------------------
  // The page
  // ---------------------------------------------------------------------------

  /** The state of the Teddy page. */
  class TeddyPage {
    var input: string
    var mood: Option<Mood>
    var currentMessage: string
    var affirmation: string
    var isAnalyzing: bool
    /** The texts that scheduled analysis callbacks captured and that have not run yet, oldest first. */
    var scheduled: seq<string>

    /** While the page is listening, no mood is shown and an analysis is pending. */
    predicate Valid()
      reads this
    {
      isAnalyzing ==> mood == None && scheduled != []
    }

    /** The result card is on screen: a mood is set and no analysis is running. */
    predicate ShowsResult()
      reads this
    {
      mood.Some? && !isAnalyzing
    }

    constructor ()
      ensures Valid()
      ensures input == "" && mood == None && currentMessage == "" && affirmation == ""
      ensures !isAnalyzing && scheduled == []
    {
      input, mood, currentMessage, affirmation := "", None, "", "";
      isAnalyzing, scheduled := false, [];
    }

    /** The text area's `onChange`. */
    method SetInput(text: string)
      requires Valid()
      modifies this
      ensures Valid()
      ensures input == text
      ensures mood == old(mood) && currentMessage == old(currentMessage) && affirmation == old(affirmation)
      ensures isAnalyzing == old(isAnalyzing) && scheduled == old(scheduled)
    {
      input := text;
    }

    /** The share button is enabled when nothing is being analysed and the input is not blank. */
    predicate CanAnalyze()
      reads this
    {
      !isAnalyzing && !Js.IsBlank(input)
    }

    /**
     * `handleAnalyze`: a blank input changes nothing; otherwise the page goes
     * into its listening state and an analysis of the current input is scheduled.
     */
    method HandleAnalyze()
      requires Valid()
      modifies this
      ensures Valid()
      ensures Js.IsBlank(old(input)) ==> unchanged(this)
      ensures !Js.IsBlank(old(input)) ==>
                isAnalyzing && mood == None && scheduled == old(scheduled) + [old(input)]
                && input == old(input) && currentMessage == old(currentMessage) && affirmation == old(affirmation)
    {
      Js.TrimEmptyIffBlank(input);
      if Js.Trim(input) == [] {
        return;
      }
      isAnalyzing := true;
      mood := None;
      scheduled := scheduled + [input];
    }

    /**
     * The callback `setTimeout` runs 1.5 s later: it classifies the captured
     * text and shows a random message of that mood and a random affirmation.
     */
    method AnalysisDone(rMessage: real, rAffirmation: real)
      requires Valid()
      requires scheduled != []
      requires 0.0 <= rMessage < 1.0 && 0.0 <= rAffirmation < 1.0
      modifies this
      ensures Valid()
      ensures mood == Some(Classify(Keywords, old(scheduled[0])))
      ensures currentMessage == Js.RandomItem(Responses(mood.value).messages, rMessage)
      ensures affirmation == Js.RandomItem(Affirmations(), rAffirmation)
      ensures !isAnalyzing && scheduled == old(scheduled[1..]) && input == old(input)
      ensures ShowsResult()
    {
      var detected := AnalyzeMood(Keywords, scheduled[0]);
      mood := Some(detected);
      currentMessage := Js.RandomItem(Responses(detected).messages, rMessage);
      affirmation := Js.RandomItem(Affirmations(), rAffirmation);
      isAnalyzing := false;
      scheduled := scheduled[1..];
    }

    /** The animation tag handed to the bear: the mood's tag, or none before any mood. */
    function BearAnimation(): string
      reads this
    {
      if mood.Some? then Responses(mood.value).animation else ""
    }
  }
}
