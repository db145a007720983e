/**
 * The mood bottle page: the emoji categories and `calculateMoodScore`, the
 * emoji toggle and the save guard of the page, the star label, and the
 * stress-relief teddy with its hit counter.
 */
module MoodBottle {
  import opened Wrappers
  import Js

  // ---------------------------------------------------------------------------
  // Emoji categories
  // ---------------------------------------------------------------------------

  datatype Category = Category(emojis: seq<string>, score: nat)

  /** `Object.values(emojiCategories)`: happy, good, neutral, sad, angry. */
  function Categories(): (cats: seq<Category>)
    ensures |cats| == 5 && ScoresInRange(cats)
  {
    [HappyCategory(), GoodCategory(), NeutralCategory(), SadCategory(), AngryCategory()]
  }

  function HappyCategory(): Category {
    Category(["😊", "🥰", "😄", "🤗", "✨", "💖", "🌟", "🦋"], 5)
  }

  function GoodCategory(): Category {
    Category(["😌", "💕", "🌸", "😇", "💫", "🎀", "🌷"], 4)
  }

  function NeutralCategory(): Category {
    Category(["😐", "🤔", "💭", "🌙", "☁️", "🍃"], 3)
  }

  function SadCategory(): Category {
    Category(["😢", "🥺", "😔", "💔", "🌧️", "😿"], 2)
  }

  function AngryCategory(): Category {
    Category(["😤", "😠", "💢", "😡", "🔥", "⚡"], 1)
  }

  /** `allEmojis`: the category lists one after the other. */
  function AllEmojis(): seq<string> {
    HappyCategory().emojis + GoodCategory().emojis + NeutralCategory().emojis
    + SadCategory().emojis + AngryCategory().emojis
  }

  /** Every category scores from 1 to 5. */
  predicate ScoresInRange(cats: seq<Category>) {
    forall i :: 0 <= i < |cats| ==> 1 <= cats[i].score <= 5
  }

  /** The score of the first category of `cats`, from position `i` on, whose list holds `e`. */
  function FirstCategoryFrom(cats: seq<Category>, e: string, i: nat): (r: Option<nat>)
    requires i <= |cats|
    decreases |cats| - i
    ensures r.Some? && ScoresInRange(cats) ==> 1 <= r.value <= 5
  {
    if i == |cats| then None
    else if e in cats[i].emojis then Some(cats[i].score)
    else FirstCategoryFrom(cats, e, i + 1)
  }

  /**
   * The search finds a category exactly when some category from `i` on lists
   * `e`, and then it is the first such category.
   */
  lemma {:induction false} FirstCategoryFromIsFirst(cats: seq<Category>, e: string, i: nat)
    requires i <= |cats|
    decreases |cats| - i
    ensures FirstCategoryFrom(cats, e, i).Some? <==> exists j :: i <= j < |cats| && e in cats[j].emojis
    ensures FirstCategoryFrom(cats, e, i).Some? ==>
              exists j :: i <= j < |cats| && e in cats[j].emojis && FirstCategoryFrom(cats, e, i).value == cats[j].score
                          && forall l :: i <= l < j ==> e !in cats[l].emojis
  {
    if i < |cats| && e !in cats[i].emojis {
      FirstCategoryFromIsFirst(cats, e, i + 1);
    }
  }

  /** What one selected emoji adds under the page's table: the score of the first category listing it, or nothing. */
  function EmojiScore(e: string): Option<nat> {
    FirstCategoryFrom(Categories(), e, 0)
  }

  /** No emoji is listed in two categories. */
  lemma CategoriesDisjoint()
    ensures forall i, j, e :: 0 <= i < j < 5 && e in Categories()[i].emojis ==> e !in Categories()[j].emojis
  {
    HappyGoodDisjoint(); HappyNeutralDisjoint(); HappySadDisjoint();
    HappyAngryDisjoint(); GoodNeutralDisjoint(); GoodSadDisjoint();
    GoodAngryDisjoint(); NeutralSadDisjoint(); NeutralAngryDisjoint();
    SadAngryDisjoint();
  }

  lemma HappyGoodDisjoint()
    ensures forall e :: e in HappyCategory().emojis ==> e !in GoodCategory().emojis
  {
  }

  lemma HappyNeutralDisjoint()
    ensures forall e :: e in HappyCategory().emojis ==> e !in NeutralCategory().emojis
  {
  }

  lemma HappySadDisjoint()
    ensures forall e :: e in HappyCategory().emojis ==> e !in SadCategory().emojis
  {
  }

  lemma HappyAngryDisjoint()
    ensures forall e :: e in HappyCategory().emojis ==> e !in AngryCategory().emojis
  {
  }

  lemma GoodNeutralDisjoint()
    ensures forall e :: e in GoodCategory().emojis ==> e !in NeutralCategory().emojis
  {
  }

  lemma GoodSadDisjoint()
    ensures forall e :: e in GoodCategory().emojis ==> e !in SadCategory().emojis
  {
  }

  lemma GoodAngryDisjoint()
    ensures forall e :: e in GoodCategory().emojis ==> e !in AngryCategory().emojis
  {
  }

  lemma NeutralSadDisjoint()
    ensures forall e :: e in NeutralCategory().emojis ==> e !in SadCategory().emojis
  {
  }

  lemma NeutralAngryDisjoint()
    ensures forall e :: e in NeutralCategory().emojis ==> e !in AngryCategory().emojis
  {
  }

  lemma SadAngryDisjoint()
    ensures forall e :: e in SadCategory().emojis ==> e !in AngryCategory().emojis
  {
  }

  /**
   * Every emoji of a category counts with that category's score, whichever
   * category the loop tries first, because the lists are disjoint.
   */
  lemma EmojiScoreOfMember(i: nat, e: string)
    requires i < 5 && e in Categories()[i].emojis
    ensures EmojiScore(e) == Some(Categories()[i].score)
  {
    CategoriesDisjoint();
  }

  /** An emoji counts exactly when it is one of `allEmojis`; any other is ignored. */
  lemma EmojiScoreIffListed(e: string)
    ensures EmojiScore(e).Some? <==> e in AllEmojis()
  {
    var cats := Categories();
    assert AllEmojis() == cats[0].emojis + cats[1].emojis + cats[2].emojis + cats[3].emojis + cats[4].emojis;
  }

  // ---------------------------------------------------------------------------
  // calculateMoodScore
  // ---------------------------------------------------------------------------

  /** The scores the selected emojis contribute under the table `cats`, in selection order. */
  function Contributions(cats: seq<Category>, selected: seq<string>): (c: seq<nat>)
    ensures |c| <= |selected|
    ensures ScoresInRange(cats) ==> forall k :: 0 <= k < |c| ==> 1 <= c[k] <= 5
  {
    if selected == [] then []
    else
      var last := selected[|selected| - 1];
      Contributions(cats, selected[..|selected| - 1])
      + (match FirstCategoryFrom(cats, last, 0) case Some(s) => [s] case None => [])
  }

  function Sum(xs: seq<nat>): nat {
    if xs == [] then 0 else Sum(xs[..|xs| - 1]) + xs[|xs| - 1]
  }

  /**
   * The mood score of a selection: the mean of the contributed scores rounded
   * half up, and 3 when the selection is empty or contributes nothing.
   */
  function MoodScore(cats: seq<Category>, selected: seq<string>): nat {
    var c := Contributions(cats, selected);
    if |selected| == 0 || |c| == 0 then 3 else Js.RoundDiv(Sum(c), |c|)
  }

  /**
   * `calculateMoodScore`, with its `forEach` over the selection and the inner
   * loop with `break`, over the category table `categories`.
   */
  method CalculateMoodScore(categories: seq<Category>, selected: seq<string>) returns (score: nat)
    ensures score == MoodScore(categories, selected)
  {
    if |selected| == 0 {
      return 3;
    }
    var totalScore := 0;
    var count := 0;
    for i := 0 to |selected|
      invariant totalScore == Sum(Contributions(categories, selected[..i]))
      invariant count == |Contributions(categories, selected[..i])|
    {
      var emoji := selected[i];
      ContributionsStep(categories, selected, i);
      ghost var prior := Contributions(categories, selected[..i]);
      var k := 0;
      while k < |categories|
        invariant k <= |categories|
        invariant FirstCategoryFrom(categories, emoji, k) == FirstCategoryFrom(categories, emoji, 0)
        invariant totalScore == Sum(prior) && count == |prior|
      {
        if emoji in categories[k].emojis {
          assert FirstCategoryFrom(categories, emoji, 0) == Some(categories[k].score);
          SumAppend(prior, categories[k].score);
          totalScore := totalScore + categories[k].score;
          count := count + 1;
          break;
        }
        k := k + 1;
      }
      if k == |categories| {
        assert FirstCategoryFrom(categories, emoji, 0) == None;
      }
    }
    assert selected[..|selected|] == selected;
    score := if count > 0 then Js.RoundDiv(totalScore, count) else 3;
  }

  /** One more selected emoji adds its contribution at the end. */
  lemma ContributionsStep(cats: seq<Category>, selected: seq<string>, i: nat)
    requires i < |selected|
    ensures FirstCategoryFrom(cats, selected[i], 0).Some? ==>
              Contributions(cats, selected[..i + 1]) == Contributions(cats, selected[..i]) + [FirstCategoryFrom(cats, selected[i], 0).value]
    ensures FirstCategoryFrom(cats, selected[i], 0).None? ==>
              Contributions(cats, selected[..i + 1]) == Contributions(cats, selected[..i])
  {
    assert selected[..i + 1][..i] == selected[..i];
  }

  lemma SumAppend(xs: seq<nat>, x: nat)
    ensures Sum(xs + [x]) == Sum(xs) + x
  {
    assert (xs + [x])[..|xs|] == xs;
  }

  lemma {:induction false} SumBounds(xs: seq<nat>)
    requires forall k :: 0 <= k < |xs| ==> 1 <= xs[k] <= 5
    ensures |xs| <= Sum(xs) <= 5 * |xs|
  {
    if xs != [] {
      SumBounds(xs[..|xs| - 1]);
    }
  }

  /** Rounding a mean of values from 1 to 5 stays from 1 to 5. */
  lemma RoundedMeanBounds(t: nat, c: nat)
    requires 0 < c && c <= t <= 5 * c
    ensures 1 <= Js.RoundDiv(t, c) <= 5
  {
  }

  /** The mood score always lies between 1 and 5. */
  lemma MoodScoreInRange(cats: seq<Category>, selected: seq<string>)
    requires ScoresInRange(cats)
    ensures 1 <= MoodScore(cats, selected) <= 5
  {
    var c := Contributions(cats, selected);
    if |selected| > 0 && |c| > 0 {
      SumBounds(c);
      RoundedMeanBounds(Sum(c), |c|);
    }
  }

  /** A selection with no recognised emoji, the empty one included, scores 3. */
  lemma {:induction false} UnrecognisedScoresThree(cats: seq<Category>, selected: seq<string>)
    requires forall k :: 0 <= k < |selected| ==> FirstCategoryFrom(cats, selected[k], 0).None?
    ensures Contributions(cats, selected) == []
    ensures MoodScore(cats, selected) == 3
  {
    if selected != [] {
      UnrecognisedScoresThree(cats, selected[..|selected| - 1]);
    }
  }

  // ---------------------------------------------------------------------------
  // The star label
  // ---------------------------------------------------------------------------

  datatype Label = Label(text: string, color: string)

  /** `getMoodLabel`. */
  function MoodLabel(stars: int): Label {
    if stars <= 1 then Label("Feeling angry..." + " 💢", "text-red-400")
    else if stars <= 2 then Label("Feeling sad 🥺", "text-purple-400")
    else if stars == 3 then Label("Hanging in " + "there 🌸", "text-pink-400")
    else if stars == 4 then Label("Pretty good! 🌟", "text-amber-400")
    else Label("So happy! ✨💖", "text-yellow-400")
  }

  /**
   * The label steps: every rating up to 1 reads as angry and every rating from
   * 5 up as happy, and the ratings 1 to 5 get five different labels.
   */
  lemma MoodLabelSteps(stars: int)
    ensures stars <= 1 ==> MoodLabel(stars) == MoodLabel(1)
    ensures stars >= 5 ==> MoodLabel(stars) == MoodLabel(5)
    ensures forall a, b :: 1 <= a < b <= 5 ==> MoodLabel(a) != MoodLabel(b)
  {
  }

  // ---------------------------------------------------------------------------
  // The page
  // ---------------------------------------------------------------------------

  predicate NoDuplicates(s: seq<string>) {
    forall i, j :: 0 <= i < j < |s| ==> s[i] != s[j]
  }

  /**
   * `prev.filter(e => e !== emoji)`: every copy of `e` goes and every other
   * entry stays, as often as it occurred.
   */
  function Remove(s: seq<string>, e: string): (r: seq<string>)
    ensures |r| <= |s|
    ensures forall x :: x in r <==> x in s && x != e
    ensures multiset(r) == multiset(s)[e := 0]
    ensures NoDuplicates(s) ==> NoDuplicates(r)
  {
    if s == [] then []
    else
      var rest := Remove(s[1..], e);
      assert s == [s[0]] + s[1..];
      if s[0] == e then rest
      else
        assert NoDuplicates(s) ==> s[0] !in s[1..];
        [s[0]] + rest
  }

  /** `filter` keeps the order: filtering a concatenation filters each part in place. */
  lemma {:induction false} RemoveConcat(a: seq<string>, b: seq<string>, e: string)
    ensures Remove(a + b, e) == Remove(a, e) + Remove(b, e)
  {
    if a == [] {
      assert a + b == b;
    } else {
      assert (a + b)[0] == a[0] && (a + b)[1..] == a[1..] + b;
      RemoveConcat(a[1..], b, e);
    }
  }

  /** On one entry, `filter` keeps it exactly when it differs from `e`. */
  lemma RemoveSingle(x: string, e: string)
    ensures Remove([x], e) == if x == e then [] else [x]
  {
  }

  /**
   * `toggleEmoji`: `e` is selected afterwards exactly when it was not, every
   * other emoji keeps its state and its count, a newly selected emoji goes at
   * the end, and the selection never gains a duplicate.
   */
  function Toggle(selected: seq<string>, e: string): (r: seq<string>)
    ensures e in r <==> e !in selected
    ensures forall x :: x != e ==> (x in r <==> x in selected)
    ensures e in selected ==> multiset(r) == multiset(selected)[e := 0]
    ensures e !in selected ==> r == selected + [e]
    ensures NoDuplicates(selected) ==> NoDuplicates(r)
  {
    if e in selected then Remove(selected, e) else selected + [e]
  }

  lemma {:induction false} RemoveAbsent(s: seq<string>, e: string)
    requires e !in s
    ensures Remove(s, e) == s
  {
    if s != [] {
      RemoveAbsent(s[1..], e);
    }
  }

  lemma {:induction false} RemoveAppended(s: seq<string>, e: string)
    requires e !in s
    ensures Remove(s + [e], e) == s
  {
    if s == [] {
      assert [e][1..] == [];
    } else {
      assert (s + [e])[1..] == s[1..] + [e];
      RemoveAppended(s[1..], e);
    }
  }

  /** Toggling an unselected emoji twice gives back the same selection. */
  lemma ToggleTwiceRestores(selected: seq<string>, e: string)
    requires e !in selected
    ensures Toggle(Toggle(selected, e), e) == selected
  {
    RemoveAppended(selected, e);
  }

  /** The row `saveMood` inserts. */
  datatype MoodEntry = MoodEntry(userId: string, emojis: seq<string>, moodScore: nat)

  /** The mood bottle page's selection and session state. */
  class MoodBottlePage {
    var selectedEmojis: seq<string>
    var userId: Option<string>

    predicate Valid()
      reads this
    {
      NoDuplicates(selectedEmojis)
    }

    constructor ()
      ensures Valid() && selectedEmojis == [] && userId == None
    {
      selectedEmojis, userId := [], None;
    }

    /** The session check stores the signed-in user. */
    method SignedIn(id: string)
      modifies this
      ensures userId == Some(id) && selectedEmojis == old(selectedEmojis)
    {
      userId := Some(id);
    }

    /** The score shown for the current selection. */
    function CurrentScore(): nat
      reads this
    {
      MoodScore(Categories(), selectedEmojis)
    }

    /** `toggleEmoji`. */
    method ToggleEmoji(e: string)
      requires Valid()
      modifies this
      ensures Valid()
      ensures selectedEmojis == Toggle(old(selectedEmojis), e) && userId == old(userId)
    {
      selectedEmojis := Toggle(selectedEmojis, e);
    }

    /**
     * `saveMood`: without a user or without any selected emoji it refuses;
     * otherwise it hands the backend the user, the selection and its score.
     */
    method SaveMood() returns (entry: Option<MoodEntry>)
      ensures entry.None? <==> userId.None? || selectedEmojis == []
      ensures entry.Some? ==> entry.value == MoodEntry(userId.value, selectedEmojis, MoodScore(Categories(), selectedEmojis))
    {
      if userId.None? || |selectedEmojis| == 0 {
        return None;
      }
      var score := CalculateMoodScore(Categories(), selectedEmojis);
      entry := Some(MoodEntry(userId.value, selectedEmojis, score));
    }
  }

  // ---------------------------------------------------------------------------
  // The stress-relief teddy
  // ---------------------------------------------------------------------------

  predicate IsHappy(moodScore: int) {
    moodScore >= 4
  }

  predicate NeedsStressRelief(moodScore: int) {
    moodScore <= 3
  }

  /** `requiredHits`. */
  function RequiredHits(moodScore: int): int {
    if NeedsStressRelief(moodScore) then (4 - moodScore) * 3 + 3 else 1
  }

  /**
   * Scores 3, 2 and 1 need 6, 9 and 12 hits, and a happy score needs one;
   * a score is either happy or in need of relief, never both.
   */
  lemma RequiredHitsByScore(moodScore: int)
    ensures RequiredHits(3) == 6 && RequiredHits(2) == 9 && RequiredHits(1) == 12
    ensures IsHappy(moodScore) <==> !NeedsStressRelief(moodScore)
    ensures IsHappy(moodScore) ==> RequiredHits(moodScore) == 1
    ensures 1 <= moodScore <= 5 ==> 1 <= RequiredHits(moodScore) <= 12
  {
  }

  /** An interaction schedules the comfort message when relief is needed, this hit reaches the target and the bear is not comforted yet. */
  predicate ComfortDue(moodScore: int, hitCount: nat, isComforted: bool) {
    NeedsStressRelief(moodScore) && hitCount + 1 >= RequiredHits(moodScore) && !isComforted
  }

  /** `comfortingMessages`. */
  function ComfortingMessages(): seq<string> {
    [
      "I hope your " + "mood feels " + "lighter now. " + "You are strong, " + "beautiful, and " + "not alone. Take " + "a deep breath, " + "everything will " + "be okay. You " + "deserve love, " + "peace, and " + "happiness. 💕",
      "It's okay to " + "feel what " + "you're feeling. " + "You're doing " + "your best, and " + "that's more " + "than enough. " + "I'm here for " + "you, always. 🤍",
      "Even on hard " + "days, remember: " + "you are worthy " + "of all the love " + "in the world. " + "This too shall " + "pass, sweet " + "one. 🌸",
      "Let it all out. " + "Your feelings " + "are valid. " + "After the storm " + "comes the " + "rainbow, and " + "you deserve all " + "the colors. 💫"
    ]
  }

  /** `happyMessages`. */
  function HappyMessages(): seq<string> {
    [
      "Your smile " + "makes the world " + "brighter! Keep " + "shining, keep " + "laughing, and " + "never stop " + "being you. " + "Happiness looks " + "beautiful on " + "you! 🌟",
      "You're " + "radiating such " + "beautiful " + "energy today! " + "The universe is " + "lucky to have " + "you spreading " + "this joy. ✨",
      "Look at you, " + "all happy and " + "glowing! Your " + "positivity is " + "contagious. " + "Keep that " + "sparkle going! 💖",
      "What a " + "beautiful mood " + "you're in! You " + "deserve every " + "bit of this " + "happiness. May " + "it stay with " + "you always! 🦋"
    ]
  }

  /** The state of the stress-relief teddy for one mood score. */
  class StressReliefTeddy {
    var moodScore: int
    var hitCount: nat
    var isAnimating: bool
    var showMessage: bool
    var message: string
    var isComforted: bool
    /** Comfort callbacks scheduled and not run yet. */
    var pendingComfort: nat

    constructor (score: int)
      ensures moodScore == score && hitCount == 0 && !isAnimating && !showMessage
      ensures message == "" && !isComforted && pendingComfort == 0
    {
      moodScore, hitCount, isAnimating, showMessage := score, 0, false, false;
      message, isComforted, pendingComfort := "", false, 0;
    }

    /**
     * `handleInteract`: ignored while the bear is animating; otherwise the bear
     * animates and counts the hit, and either the comfort message is scheduled
     * or, for a happy score, a happy message is shown at once.
     */
    method HandleInteract(rHappy: real)
      requires 0.0 <= rHappy < 1.0
      modifies this
      ensures old(isAnimating) ==> unchanged(this)
      ensures !old(isAnimating) ==>
                isAnimating && hitCount == old(hitCount) + 1
                && moodScore == old(moodScore) && isComforted == old(isComforted)
      ensures !old(isAnimating) && ComfortDue(old(moodScore), old(hitCount), old(isComforted)) ==>
                pendingComfort == old(pendingComfort) + 1
                && showMessage == old(showMessage) && message == old(message)
      ensures !old(isAnimating) && !ComfortDue(old(moodScore), old(hitCount), old(isComforted)) ==>
                pendingComfort == old(pendingComfort)
                && (IsHappy(old(moodScore)) ==> showMessage && message == Js.RandomItem(HappyMessages(), rHappy))
                && (!IsHappy(old(moodScore)) ==> showMessage == old(showMessage) && message == old(message))
    {
      if isAnimating {
        return;
      }
      isAnimating := true;
      var due := ComfortDue(moodScore, hitCount, isComforted);
      hitCount := hitCount + 1;
      if due {
        pendingComfort := pendingComfort + 1;
      } else if IsHappy(moodScore) {
        showMessage := true;
        message := Js.RandomItem(HappyMessages(), rHappy);
      }
    }

    /** The 300 ms callback that ends the hit animation. */
    method AnimationDone()
      modifies this
      ensures !isAnimating
      ensures moodScore == old(moodScore) && hitCount == old(hitCount) && showMessage == old(showMessage)
      ensures message == old(message) && isComforted == old(isComforted) && pendingComfort == old(pendingComfort)
    {
      isAnimating := false;
    }

    /** The 500 ms comfort callback: the bear is comforted and shows a comforting message. */
    method ComfortDone(r: real)
      requires pendingComfort > 0 && 0.0 <= r < 1.0
      modifies this
      ensures isComforted && showMessage && message == Js.RandomItem(ComfortingMessages(), r)
      ensures pendingComfort == old(pendingComfort) - 1
      ensures moodScore == old(moodScore) && hitCount == old(hitCount) && isAnimating == old(isAnimating)
    {
      isComforted, showMessage := true, true;
      message := Js.RandomItem(ComfortingMessages(), r);
      pendingComfort := pendingComfort - 1;
    }

    /** `closeMessage`. */
    method CloseMessage()
      modifies this
      ensures !showMessage
      ensures moodScore == old(moodScore) && hitCount == old(hitCount) && isAnimating == old(isAnimating)
      ensures message == old(message) && isComforted == old(isComforted) && pendingComfort == old(pendingComfort)
    {
      showMessage := false;
    }

    /** `resetTeddy`: the count goes back to zero and the bear is no longer comforted. */
    method ResetTeddy()
      modifies this
      ensures hitCount == 0 && !isComforted && !showMessage
      ensures moodScore == old(moodScore) && isAnimating == old(isAnimating)
      ensures message == old(message) && pendingComfort == old(pendingComfort)
    {
      hitCount, isComforted, showMessage := 0, false, false;
    }

    /** A new mood score from the page; the effect on `moodScore` resets the bear when it changed. */
    method SetMoodScore(score: int)
      modifies this
      ensures moodScore == score
      ensures score != old(moodScore) ==> hitCount == 0 && !isComforted && !showMessage
      ensures score == old(moodScore) ==>
                hitCount == old(hitCount) && isComforted == old(isComforted) && showMessage == old(showMessage)
      ensures isAnimating == old(isAnimating) && message == old(message) && pendingComfort == old(pendingComfort)
    {
      if score != moodScore {
        moodScore := score;
        ResetTeddy();
      }
    }
  }

  /**
   * A fresh bear hit `n` times, each hit's animation running out before the
   * next, with no comfort callback run yet. For a score that needs relief the
   * first comfort is scheduled exactly by the `RequiredHits`-th hit, and every
   * later hit schedules one more; a happy score schedules none.
   */
  method ComfortOnRequiredHit(score: int, n: nat) returns (t: StressReliefTeddy)
    ensures t.moodScore == score && t.hitCount == n && !t.isAnimating && !t.isComforted
    ensures NeedsStressRelief(score) ==>
              t.pendingComfort == (if n >= RequiredHits(score) then n - RequiredHits(score) + 1 else 0)
    ensures NeedsStressRelief(score) ==> (t.pendingComfort > 0 <==> n >= RequiredHits(score))
    ensures !NeedsStressRelief(score) ==> t.pendingComfort == 0
  {
    t := new StressReliefTeddy(score);
    var k := 0;
    while k < n
      invariant 0 <= k <= n && fresh(t)
      invariant t.moodScore == score && t.hitCount == k && !t.isAnimating && !t.isComforted
      invariant NeedsStressRelief(score) ==>
                  t.pendingComfort == (if k >= RequiredHits(score) then k - RequiredHits(score) + 1 else 0)
      invariant !NeedsStressRelief(score) ==> t.pendingComfort == 0
    {
      t.HandleInteract(0.0);
      t.AnimationDone();
      k := k + 1;
    }
  }
}
