/**
 * The preferences quiz: the nine questions, and the wizard state that
 * `handleAnswer`, `handleNext` and `handlePrevious` update, with the derived
 * flags that enable its buttons.
 */
module Quiz {
  import opened Wrappers
  import opened Preferences

  datatype QuizOption = QuizOption(value: string, text: string, emoji: string)
  datatype Question = Question(key: Key, question: string, options: seq<QuizOption>)

  /** The keys of `questions`, in order. */
  function QuestionKeys(): seq<Key> {
    [FavoriteColor, FavoriteFlower, FavoriteSeason, FavoriteMovieGenre, FavoriteMusic,
     FavoriteHobby, FavoriteFood, FavoriteDrink, FavoriteDessert]
  }

  /** `questions`. */
  function Questions(): seq<Question> {
    [ColorQuestion(), FlowerQuestion(), SeasonQuestion(), MovieGenreQuestion(), MusicQuestion(), HobbyQuestion(), FoodQuestion(), DrinkQuestion(), DessertQuestion()]
  }

  function ColorQuestion(): Question {
    Question(FavoriteColor,
      "What color " + "makes your " + "heart flutter? 🎨",
    [
      QuizOption("pink", "Pink 💗", "🌸"),
      QuizOption("lavender", "Lavender 💜", "🪻"),
      QuizOption("mint", "Mint 💚", "🌿"),
      QuizOption("peach", "Peach 🧡", "🍑"),
      QuizOption("sky_blue", "Sky Blue 💙", "☁️"),
      QuizOption("cream", "Cream 🤍", "🕯️")
    ])
  }

  function FlowerQuestion(): Question {
    Question(FavoriteFlower,
      "Pick your bloom " + "bestie! 🌷",
    [
      QuizOption("rose", "Roses 🌹", "🌹"),
      QuizOption("tulip", "Tulips 🌷", "🌷"),
      QuizOption("sunflower", "Sunflowers 🌻", "🌻"),
      QuizOption("cherry_blossom", "Cherry Blossoms 🌸", "🌸"),
      QuizOption("lavender", "Lavender 💜", "🪻"),
      QuizOption("peony", "Peonies 🪷", "🪷")
    ])
  }

  function SeasonQuestion(): Question {
    Question(FavoriteSeason,
      "Which season is " + "your aesthetic? " + "✨",
    [
      QuizOption("spring", "Spring 🌸", "🌸"),
      QuizOption("summer", "Summer ☀️", "☀️"),
      QuizOption("autumn", "Autumn 🍂", "🍂"),
      QuizOption("winter", "Winter ❄️", "❄️")
    ])
  }

  function MovieGenreQuestion(): Question {
    Question(FavoriteMovieGenre,
      "Movie night " + "vibes? 🎬",
    [
      QuizOption("romcom", "Rom-Coms 💕", "💕"),
      QuizOption("fantasy", "Fantasy 🧚", "🧚"),
      QuizOption("drama", "Drama 🎭", "🎭"),
      QuizOption("horror", "Horror 👻", "👻"),
      QuizOption("animation", "Animation ✨", "✨"),
      QuizOption("kdrama", "K-Drama 🇰🇷", "🇰🇷")
    ])
  }

  function MusicQuestion(): Question {
    Question(FavoriteMusic,
      "What's on your " + "playlist? 🎧",
    [
      QuizOption("pop", "Pop 🎤", "🎤"),
      QuizOption("indie", "Indie 🌙", "🌙"),
      QuizOption("kpop", "K-Pop 💜", "💜"),
      QuizOption("lofi", "Lo-Fi ☁️", "☁️"),
      QuizOption("rnb", "R&B 🎵", "🎵"),
      QuizOption("classical", "Classical 🎻", "🎻")
    ])
  }

  function HobbyQuestion(): Question {
    Question(FavoriteHobby,
      "How do you " + "spend your " + "me-time? 🦋",
    [
      QuizOption("reading", "Reading 📚", "📚"),
      QuizOption("art", "Art/Drawing 🎨", "🎨"),
      QuizOption("gaming", "Gaming 🎮", "🎮"),
      QuizOption("cooking", "Cooking 🧁", "🧁"),
      QuizOption("shopping", "Shopping 🛍️", "🛍️"),
      QuizOption("journaling", "Journaling ✍️", "✍️")
    ])
  }

  function FoodQuestion(): Question {
    Question(FavoriteFood,
      "Comfort food? 🍜",
    [
      QuizOption("pasta", "Pasta 🍝", "🍝"),
      QuizOption("sushi", "Sushi 🍣", "🍣"),
      QuizOption("pizza", "Pizza 🍕", "🍕"),
      QuizOption("ramen", "Ramen 🍜", "🍜"),
      QuizOption("tacos", "Tacos 🌮", "🌮"),
      QuizOption("salad", "Salad 🥗", "🥗")
    ])
  }

  function DrinkQuestion(): Question {
    Question(FavoriteDrink,
      "What's your " + "go-to sip? ☕",
    [
      QuizOption("boba", "Boba Tea 🧋", "🧋"),
      QuizOption("coffee", "Coffee ☕", "☕"),
      QuizOption("matcha", "Matcha 🍵", "🍵"),
      QuizOption("smoothie", "Smoothie 🥤", "🥤"),
      QuizOption("water", "Water 💧", "💧"),
      QuizOption("hot_chocolate", "Hot Chocolate 🍫", "🍫")
    ])
  }

  function DessertQuestion(): Question {
    Question(FavoriteDessert,
      "Sweet tooth " + "satisfaction? 🍰",
    [
      QuizOption("cake", "Cake 🎂", "🎂"),
      QuizOption("ice_cream", "Ice Cream 🍦", "🍦"),
      QuizOption("macarons", "Macarons 🌸", "🌸"),
      QuizOption("cookies", "Cookies 🍪", "🍪"),
      QuizOption("chocolate", "Chocolate 🍫", "🍫"),
      QuizOption("mochi", "Mochi 🍡", "🍡")
    ])
  }

  /** Question `i` asks for key `i` of `QuestionKeys`. */
  lemma QuestionsFollowKeys()
    ensures |Questions()| == |QuestionKeys()| == 9
    ensures forall i :: 0 <= i < 9 ==> Questions()[i].key == QuestionKeys()[i]
  {
  }

  /** The nine question keys are distinct and are exactly the fields of an answer record. */
  lemma KeysAreTheAnswerFields()
    ensures forall i, j :: 0 <= i < j < |QuestionKeys()| ==> QuestionKeys()[i] != QuestionKeys()[j]
    ensures forall k: Key :: k in QuestionKeys()
  {
    forall k: Key
      ensures k in QuestionKeys()
    {
      match k
        case FavoriteColor => assert QuestionKeys()[0] == k;
        case FavoriteFlower => assert QuestionKeys()[1] == k;
        case FavoriteSeason => assert QuestionKeys()[2] == k;
        case FavoriteMovieGenre => assert QuestionKeys()[3] == k;
        case FavoriteMusic => assert QuestionKeys()[4] == k;
        case FavoriteHobby => assert QuestionKeys()[5] == k;
        case FavoriteFood => assert QuestionKeys()[6] == k;
        case FavoriteDrink => assert QuestionKeys()[7] == k;
        case FavoriteDessert => assert QuestionKeys()[8] == k;
    }
  }

  /** `{ ...prev, [key]: value }`. */
  function SetAnswer(answers: Answers, k: Key, value: string): (r: Answers)
    ensures k in r && r[k] == value
    ensures forall o :: o != k ==> (o in r <==> o in answers)
    ensures forall o :: o != k && o in answers ==> r[o] == answers[o]
  {
    answers[k := value]
  }

  /** Answering the same question twice keeps only the second answer. */
  lemma SetAnswerOverwrites(answers: Answers, k: Key, first: string, second: string)
    ensures SetAnswer(SetAnswer(answers, k, first), k, second) == SetAnswer(answers, k, second)
  {
  }

  /** `!!answers[key]`: the key holds a non-empty answer. */
  predicate IsAnswered(answers: Answers, k: Key) {
    k in answers && answers[k] != ""
  }

  /** The row `handleSubmit` upserts. */
  datatype Submission = Submission(userId: string, answers: Answers, completedAt: string)

  /** The quiz page's state. */
  class QuizPage {
    var currentQuestion: nat
    var answers: Answers
    var isSaving: bool
    var userId: Option<string>

    /** The question index always names a question. */
    predicate Valid()
      reads this
    {
      currentQuestion < |QuestionKeys()|
    }

    constructor ()
      ensures Valid()
      ensures currentQuestion == 0 && answers == map[] && !isSaving && userId == None
    {
      currentQuestion, answers, isSaving, userId := 0, map[], false, None;
    }

    /** The session check stores the signed-in user. */
    method SignedIn(id: string)
      requires Valid()
      modifies this
      ensures Valid()
      ensures userId == Some(id)
      ensures currentQuestion == old(currentQuestion) && answers == old(answers) && isSaving == old(isSaving)
    {
      userId := Some(id);
    }

    /** `currentKey`. */
    function CurrentKey(): Key
      requires Valid()
      reads this
    {
      QuestionKeys()[currentQuestion]
    }

    /** `handleAnswer`: record the answer to the current question, and nothing else. */
    method HandleAnswer(value: string)
      requires Valid()
      modifies this
      ensures Valid()
      ensures answers == SetAnswer(old(answers), old(CurrentKey()), value)
      ensures currentQuestion == old(currentQuestion) && isSaving == old(isSaving) && userId == old(userId)
    {
      answers := SetAnswer(answers, CurrentKey(), value);
    }

    /** `handleNext`: move on, except on the last question. */
    method HandleNext()
      requires Valid()
      modifies this
      ensures Valid()
      ensures old(currentQuestion) < |QuestionKeys()| - 1 ==> currentQuestion == old(currentQuestion) + 1
      ensures old(currentQuestion) == |QuestionKeys()| - 1 ==> currentQuestion == old(currentQuestion)
      ensures answers == old(answers) && isSaving == old(isSaving) && userId == old(userId)
    {
      if currentQuestion < |QuestionKeys()| - 1 {
        currentQuestion := currentQuestion + 1;
      }
    }

    /** `handlePrevious`: move back, except on the first question. */
    method HandlePrevious()
      requires Valid()
      modifies this
      ensures Valid()
      ensures old(currentQuestion) > 0 ==> currentQuestion == old(currentQuestion) - 1
      ensures old(currentQuestion) == 0 ==> currentQuestion == 0
      ensures answers == old(answers) && isSaving == old(isSaving) && userId == old(userId)
    {
      if currentQuestion > 0 {
        currentQuestion := currentQuestion - 1;
      }
    }

    /** `isCurrentAnswered`. */
    predicate IsCurrentAnswered()
      requires Valid()
      reads this
    {
      IsAnswered(answers, CurrentKey())
    }

    /** `isLastQuestion`. */
    predicate IsLastQuestion()
      reads this
    {
      currentQuestion == |QuestionKeys()| - 1
    }

    /** The Back button is enabled off the first question. */
    predicate CanGoBack()
      reads this
    {
      currentQuestion != 0
    }

    /** The Next button is shown before the last question and enabled once the current one is answered. */
    predicate CanGoNext()
      requires Valid()
      reads this
    {
      !IsLastQuestion() && IsCurrentAnswered()
    }

    /** The submit button is shown on the last question and enabled once it is answered and nothing is saving. */
    predicate CanSubmit()
      requires Valid()
      reads this
    {
      IsLastQuestion() && IsCurrentAnswered() && !isSaving
    }

    /**
     * `handleSubmit`: nothing without a signed-in user; otherwise the row to
     * upsert, holding the user, every answer and the completion time. `isSaving`
     * is back to false once the call settles.
     */
    method HandleSubmit(now: string) returns (row: Option<Submission>)
      ensures row.None? <==> userId.None?
      ensures row.Some? ==> row.value == Submission(userId.value, answers, now)
    {
      if userId.None? {
        return None;
      }
      row := Some(Submission(userId.value, answers, now));
    }
  }

  /** Next and submit are never both offered, and on question 0 the wizard cannot go back. */
  lemma ButtonsExclusive(q: QuizPage)
    requires q.Valid()
    ensures !(q.CanGoNext() && q.CanSubmit())
    ensures q.currentQuestion == 0 ==> !q.CanGoBack()
    ensures q.CanSubmit() ==> q.IsLastQuestion() && IsAnswered(q.answers, FavoriteDessert)
  {
  }
}
