/**
 * `getSuggestions` of the suggestions page: five lookup tables keyed by quiz
 * answers, each with a fallback list, and a list of mood activities built
 * from the hobby, drink and dessert answers.
 */
module Suggestions {
  import opened Wrappers
  import opened Preferences

  /** One suggestion card; the icon is presentation and is left out. */
  datatype Suggestion = Suggestion(category: string, title: string, items: seq<string>, color: string)

  // ---------------------------------------------------------------------------
  // Lookup tables
  // ---------------------------------------------------------------------------

  /** `selfCareByColor[key]`: the list stored under `key`, if any. */
  function SelfCareByColor(key: string): Option<seq<string>> {
    if key == "pink" then Some(SelfCarePink())
    else if key == "lavender" then Some(SelfCareLavender())
    else if key == "mint" then Some(SelfCareMint())
    else if key == "peach" then Some(SelfCarePeach())
    else if key == "sky_blue" then Some(SelfCareSkyBlue())
    else if key == "cream" then Some(SelfCareCream())
    else None
  }

  function SelfCarePink(): seq<string> {
    [
      "Rose-scented " + "bath bombs 🛁",
      "Pink face masks " + "🌸",
      "Strawberry lip " + "balm 💋"
    ]
  }

  function SelfCareLavender(): seq<string> {
    [
      "Lavender pillow " + "spray 😴",
      "Calming " + "aromatherapy 🪻",
      "Purple hair " + "clips 💜"
    ]
  }

  function SelfCareMint(): seq<string> {
    [
      "Green tea " + "skincare 🍵",
      "Eucalyptus " + "shower steamer 🌿",
      "Jade roller " + "massage 💎"
    ]
  }

  function SelfCarePeach(): seq<string> {
    [
      "Vitamin C serum " + "✨",
      "Peach body " + "butter 🍑",
      "Coral nail " + "polish 💅"
    ]
  }

  function SelfCareSkyBlue(): seq<string> {
    [
      "Ocean sounds " + "playlist 🌊",
      "Blue light " + "glasses 👓",
      "Cloud slime " + "ASMR ☁️"
    ]
  }

  function SelfCareCream(): seq<string> {
    [
      "Vanilla candle " + "session 🕯️",
      "Cozy blanket " + "time 🧸",
      "Warm milk & " + "honey 🍯"
    ]
  }

  /** `dateIdeas[key]`: the list stored under `key`, if any. */
  function DateIdeasBySeason(key: string): Option<seq<string>> {
    if key == "spring" then Some(DateIdeasSpring())
    else if key == "summer" then Some(DateIdeasSummer())
    else if key == "autumn" then Some(DateIdeasAutumn())
    else if key == "winter" then Some(DateIdeasWinter())
    else None
  }

  function DateIdeasSpring(): seq<string> {
    [
      "Picnic in a " + "flower garden 🌷",
      "Farmers market " + "date 🍓",
      "Outdoor " + "painting " + "session 🎨"
    ]
  }

  function DateIdeasSummer(): seq<string> {
    [
      "Beach sunset " + "watch 🌅",
      "Ice cream crawl " + "🍦",
      "Stargazing " + "night ✨"
    ]
  }

  function DateIdeasAutumn(): seq<string> {
    [
      "Cozy café " + "hopping ☕",
      "Pumpkin patch " + "adventure 🎃",
      "Sweater weather " + "walk 🍂"
    ]
  }

  function DateIdeasWinter(): seq<string> {
    [
      "Hot chocolate " + "date 🍫",
      "Ice skating 🎿",
      "Movie marathon " + "night 🎬"
    ]
  }

  /** `movieRecs[key]`: the list stored under `key`, if any. */
  function MovieRecs(key: string): Option<seq<string>> {
    if key == "romcom" then Some(MoviesRomcom())
    else if key == "fantasy" then Some(MoviesFantasy())
    else if key == "drama" then Some(MoviesDrama())
    else if key == "horror" then Some(MoviesHorror())
    else if key == "animation" then Some(MoviesAnimation())
    else if key == "kdrama" then Some(MoviesKdrama())
    else None
  }

  function MoviesRomcom(): seq<string> {
    [
      "The Proposal 💍",
      "Crazy Rich " + "Asians 💎",
      "10 Things I " + "Hate About You 💕"
    ]
  }

  function MoviesFantasy(): seq<string> {
    [
      "Howl's Moving " + "Castle 🏰",
      "The Shape of " + "Water 🧜‍♀️",
      "Pan's Labyrinth " + "🧚"
    ]
  }

  function MoviesDrama(): seq<string> {
    [
      "Pride & " + "Prejudice 📚",
      "Little Women " + "👯‍♀️",
      "La La Land 🌃"
    ]
  }

  function MoviesHorror(): seq<string> {
    [
      "Midsommar 🌸",
      "The Craft 🔮",
      "Jennifer's Body " + "💅"
    ]
  }

  function MoviesAnimation(): seq<string> {
    [
      "Spirited Away 🌊",
      "Your Name ⭐",
      "Encanto 🦋"
    ]
  }

  function MoviesKdrama(): seq<string> {
    [
      "Crash Landing " + "on You 💕",
      "Goblin 👻",
      "Reply 1988 📺"
    ]
  }

  /** `musicRecs[key]`: the list stored under `key`, if any. */
  function MusicRecs(key: string): Option<seq<string>> {
    if key == "pop" then Some(MusicPop())
    else if key == "indie" then Some(MusicIndie())
    else if key == "kpop" then Some(MusicKpop())
    else if key == "lofi" then Some(MusicLofi())
    else if key == "rnb" then Some(MusicRnb())
    else if key == "classical" then Some(MusicClassical())
    else None
  }

  function MusicPop(): seq<string> {
    [
      "Ariana Grande - " + "thank u, next 💅",
      "Dua Lipa - " + "Levitating 🪩",
      "Olivia Rodrigo " + "- good 4 u 💔"
    ]
  }

  function MusicIndie(): seq<string> {
    [
      "Clairo - Pretty " + "Girl 🌙",
      "Girl in Red - " + "we fell in love " + "in october 🍂",
      "Phoebe Bridgers " + "- Motion " + "Sickness 🌧️"
    ]
  }

  function MusicKpop(): seq<string> {
    [
      "BLACKPINK - How " + "You Like That 💖",
      "NewJeans - " + "Ditto 🎀",
      "aespa - Next " + "Level ✨"
    ]
  }

  function MusicLofi(): seq<string> {
    [
      "Coffee Shop " + "Vibes playlist ☕",
      "Study With Me " + "streams 📚",
      "Rainy Day Lo-Fi " + "🌧️"
    ]
  }

  function MusicRnb(): seq<string> {
    [
      "SZA - Kill Bill " + "💕",
      "Summer Walker - " + "Playing Games 🎮",
      "Jhené Aiko - " + "Sativa 🍃"
    ]
  }

  function MusicClassical(): seq<string> {
    [
      "Debussy - Clair " + "de Lune 🌙",
      "Chopin - " + "Nocturnes 🌸",
      "Tchaikovsky - " + "Swan Lake 🦢"
    ]
  }

  /** `shoppingRecs[key]`: the list stored under `key`, if any. */
  function ShoppingRecs(key: string): Option<seq<string>> {
    if key == "pink" then Some(ShoppingPink())
    else if key == "lavender" then Some(ShoppingLavender())
    else if key == "mint" then Some(ShoppingMint())
    else if key == "peach" then Some(ShoppingPeach())
    else if key == "sky_blue" then Some(ShoppingSkyBlue())
    else if key == "cream" then Some(ShoppingCream())
    else None
  }

  function ShoppingPink(): seq<string> {
    [
      "Pastel pink " + "cardigan 🌸",
      "Heart-shaped " + "sunglasses 💕",
      "Strawberry tote " + "bag 🍓"
    ]
  }

  function ShoppingLavender(): seq<string> {
    [
      "Purple " + "butterfly clips " + "🦋",
      "Lilac mini " + "dress 💜",
      "Amethyst " + "jewelry 💎"
    ]
  }

  function ShoppingMint(): seq<string> {
    [
      "Sage green " + "scrunchies 🌿",
      "Matcha " + "aesthetic water " + "bottle 🍵",
      "Eucalyptus " + "candle 🕯️"
    ]
  }

  function ShoppingPeach(): seq<string> {
    [
      "Peachy blush " + "palette 🍑",
      "Coral summer " + "dress 🌺",
      "Apricot perfume " + "🧴"
    ]
  }

  function ShoppingSkyBlue(): seq<string> {
    [
      "Cloud phone " + "case ☁️",
      "Light wash " + "denim jacket 👖",
      "Blue butterfly " + "earrings 🦋"
    ]
  }

  function ShoppingCream(): seq<string> {
    [
      "Beige knit " + "sweater 🧸",
      "Vanilla lip " + "gloss 💋",
      "Neutral " + "aesthetic room " + "decor 🪴"
    ]
  }


  // ---------------------------------------------------------------------------
  // The entries
  // ---------------------------------------------------------------------------

  /** The page's tables, as `getSuggestions` declares them. */
  function PageTables(): Tables {
    Tables(SelfCareByColor, DateIdeasBySeason, MovieRecs, MusicRecs, ShoppingRecs)
  }

  function SelfCareItems(table: Table, p: Answers): seq<string> {
    LookupOr(table, Field(p, FavoriteColor), "pink")
  }

  function DateItems(table: Table, p: Answers): seq<string> {
    LookupOr(table, Field(p, FavoriteSeason), "spring")
  }

  function MovieItems(table: Table, p: Answers): seq<string> {
    LookupOr(table, Field(p, FavoriteMovieGenre), "romcom")
  }

  function MusicItems(table: Table, p: Answers): seq<string> {
    LookupOr(table, Field(p, FavoriteMusic), "pop")
  }

  function ShoppingItems(table: Table, p: Answers): seq<string> {
    LookupOr(table, Field(p, FavoriteColor), "pink")
  }

  /** `preferences.favorite_season || 'Spring'`: a missing or empty season reads as "Spring". */
  function SeasonName(p: Answers): string {
    var season := Field(p, FavoriteSeason);
    if season.Some? && season.value != "" then season.value else "Spring"
  }

  /** The date card's title. */
  function DateTitle(p: Answers): string {
    "Perfect " + SeasonName(p) + " Dates 💕"
  }

  /** The activity the hobby answer adds, if any. */
  function HobbyActivity(hobby: Option<string>): (r: seq<string>)
    ensures |r| <= 1
  {
    if hobby == Some("reading") then ["Start a book club 📖"]
    else if hobby == Some("art") then ["Try watercolor painting 🎨"]
    else if hobby == Some("gaming") then ["Cozy games like " + "Stardew Valley 🎮"]
    else []
  }

  /** The activity the drink answer adds, if any. */
  function DrinkActivity(drink: Option<string>): (r: seq<string>)
    ensures |r| <= 1
  {
    if drink == Some("boba") then ["Boba shop tour " + "with besties 🧋"]
    else if drink == Some("matcha") then ["At-home matcha " + "latte making ☕"]
    else []
  }

  /** The activity the dessert answer adds, if any. */
  function DessertActivity(dessert: Option<string>): (r: seq<string>)
    ensures |r| <= 1
  {
    if dessert == Some("macarons") then ["Macaron baking day 🌸"]
    else if dessert == Some("mochi") then ["Mochi ice cream " + "taste test 🍡"]
    else []
  }

  /** The three activities pushed when fewer than three were chosen. */
  function DefaultActivities(): seq<string> {
    ["Solo journaling " + "session ✍️", "Dance party in " + "your room 💃", "Pinterest board " + "making 📌"]
  }

  /** The activities the answers choose, in hobby, drink, dessert order. */
  function Picks(p: Answers): (r: seq<string>)
    ensures |r| <= 3
  {
    HobbyActivity(Field(p, FavoriteHobby)) + DrinkActivity(Field(p, FavoriteDrink))
    + DessertActivity(Field(p, FavoriteDessert))
  }

  /** The Activities card: the chosen activities topped up with the defaults, cut to three. */
  function Activities(p: Answers): (acts: seq<string>)
    ensures |acts| == 3
  {
    (Picks(p) + DefaultActivities())[..3]
  }

  /** `moodActivities`, built by `push` and then cut with `slice(0, 3)`. */
  method BuildActivities(p: Answers) returns (moodActivities: seq<string>)
    ensures moodActivities == Activities(p)
  {
    var acts: seq<string> := [];
    acts := acts + HobbyActivity(Field(p, FavoriteHobby));
    acts := acts + DrinkActivity(Field(p, FavoriteDrink));
    acts := acts + DessertActivity(Field(p, FavoriteDessert));
    assert acts == Picks(p);
    if |acts| < 3 {
      acts := acts + DefaultActivities();
    } else {
      assert (acts + DefaultActivities())[..3] == acts;
    }
    moodActivities := acts[..3];
  }

  /** The order of the six cards. */
  function CategoryOrder(): seq<string> {
    ["Self-Care", "Date Ideas", "Watch List", "Playlist", "Shopping", "Activities"]
  }

  /** `getSuggestions` over the tables `t`: six cards pushed in a fixed order. */
  method GetSuggestions(t: Tables, p: Answers) returns (suggestions: seq<Suggestion>)
    ensures |suggestions| == 6
    ensures forall i :: 0 <= i < 6 ==> suggestions[i].category == CategoryOrder()[i]
    ensures suggestions[0].items == SelfCareItems(t.selfCareByColor, p)
    ensures suggestions[1].items == DateItems(t.dateIdeas, p) && suggestions[1].title == DateTitle(p)
    ensures suggestions[2].items == MovieItems(t.movieRecs, p) && suggestions[3].items == MusicItems(t.musicRecs, p)
    ensures suggestions[4].items == ShoppingItems(t.shoppingRecs, p) && suggestions[5].items == Activities(p)
  {
    suggestions := [];
    suggestions := suggestions + [Suggestion("Self-Care", "Pamper Yourself " + "💆‍♀️", SelfCareItems(t.selfCareByColor, p), "from-pink-400/30 " + "to-rose-400/30")];
    suggestions := suggestions + [Suggestion("Date Ideas", DateTitle(p), DateItems(t.dateIdeas, p), "from-orange-400/30 " + "to-amber-400/30")];
    suggestions := suggestions + [Suggestion("Watch List", "Your Movie Night " + "🎬", MovieItems(t.movieRecs, p), "from-purple-400/30 " + "to-violet-400/30")];
    suggestions := suggestions + [Suggestion("Playlist", "Your Vibe 🎧", MusicItems(t.musicRecs, p), "from-cyan-400/30 " + "to-blue-400/30")];
    suggestions := suggestions + [Suggestion("Shopping", "Treat Yourself " + "🛍️", ShoppingItems(t.shoppingRecs, p), "from-rose-400/30 " + "to-pink-400/30")];
    var moodActivities := BuildActivities(p);
    suggestions := suggestions + [Suggestion("Activities", "Mood Boosters 🌈", moodActivities, "from-emerald-400/30 " + "to-teal-400/30")];
  }

  // ---------------------------------------------------------------------------
  // Properties
  // ---------------------------------------------------------------------------

  /** The self-care and shopping tables are keyed by the same colours. */
  lemma ColourTablesShareKeys(color: string)
    ensures SelfCareByColor(color).Some? <==> ShoppingRecs(color).Some?
  {
  }

  /** A missing or unknown colour gives the pink lists on both the Self-Care and the Shopping card. */
  lemma UnknownColourIsPink(p: Answers)
    requires FavoriteColor !in p || SelfCareByColor(p[FavoriteColor]).None?
    ensures SelfCareItems(SelfCareByColor, p) == SelfCarePink() && ShoppingItems(ShoppingRecs, p) == ShoppingPink()
  {
    if FavoriteColor in p {
      ColourTablesShareKeys(p[FavoriteColor]);
    }
  }

  /** A missing or unknown genre gives the rom-com list, and missing or unknown music the pop list. */
  lemma UnknownGenreAndMusicFallBack(p: Answers)
    ensures FavoriteMovieGenre !in p || MovieRecs(p[FavoriteMovieGenre]).None? ==> MovieItems(MovieRecs, p) == MoviesRomcom()
    ensures FavoriteMusic !in p || MusicRecs(p[FavoriteMusic]).None? ==> MusicItems(MusicRecs, p) == MusicPop()
  {
  }

  /**
   * A missing or unknown season gives the spring date ideas; the title names the
   * season answer when it is non-empty and "Spring" otherwise.
   */
  lemma SeasonFallsBackToSpring(p: Answers)
    ensures FavoriteSeason !in p || DateIdeasBySeason(p[FavoriteSeason]).None? ==> DateItems(DateIdeasBySeason, p) == DateIdeasSpring()
    ensures FavoriteSeason in p && p[FavoriteSeason] != "" ==> DateTitle(p) == "Perfect " + p[FavoriteSeason] + " Dates 💕"
    ensures FavoriteSeason !in p || p[FavoriteSeason] == "" ==> DateTitle(p) == "Perfect Spring Dates 💕"
  {
  }

  /** The activities start with the chosen ones, in order, and are topped up with the first defaults. */
  lemma ActivitiesArePicksThenDefaults(p: Answers)
    ensures Activities(p)[..|Picks(p)|] == Picks(p)
    ensures Activities(p)[|Picks(p)|..] == DefaultActivities()[..3 - |Picks(p)|]
  {
  }

  /** Hobby, drink and dessert answers that all add an activity give exactly those three, with no default. */
  lemma AllAnswersMatch(p: Answers)
    requires FavoriteHobby in p && p[FavoriteHobby] in ["reading", "art", "gaming"]
    requires FavoriteDrink in p && p[FavoriteDrink] in ["boba", "matcha"]
    requires FavoriteDessert in p && p[FavoriteDessert] in ["macarons", "mochi"]
    ensures Activities(p) == HobbyActivity(Some(p[FavoriteHobby])) + DrinkActivity(Some(p[FavoriteDrink]))
                             + DessertActivity(Some(p[FavoriteDessert]))
    ensures |HobbyActivity(Some(p[FavoriteHobby]))| == 1
    ensures |DrinkActivity(Some(p[FavoriteDrink]))| == 1 && |DessertActivity(Some(p[FavoriteDessert]))| == 1
  {
    assert |Picks(p)| == 3;
  }

  /** When no answer adds an activity, the card shows the three defaults in their listed order. */
  lemma NoAnswerMatches(p: Answers)
    requires HobbyActivity(Field(p, FavoriteHobby)) == []
    requires DrinkActivity(Field(p, FavoriteDrink)) == [] && DessertActivity(Field(p, FavoriteDessert)) == []
    ensures Activities(p) == DefaultActivities()
  {
    assert Picks(p) == [];
  }
}
