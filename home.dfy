/**
 * The compact `getSuggestions` of the home page: smaller lookup tables read
 * through `preferences?.`, so that a null record gives every default, and a
 * fixed list of activities.
 */
module Home {
  import opened Wrappers
  import opened Preferences

  /** One suggestion card; the icon is presentation and is left out. */
  datatype Suggestion = Suggestion(title: string, items: seq<string>, color: string)

  // ---------------------------------------------------------------------------
  // Lookup tables
  // ---------------------------------------------------------------------------

  /** `selfCareByColor[key]`: the list stored under `key`, if any. */
  function SelfCareByColor(key: string): Option<seq<string>> {
    if key == "pink" then Some(SelfCarePink())
    else if key == "lavender" then Some(SelfCareLavender())
    else if key == "mint" then Some(SelfCareMint())
    else if key == "peach" then Some(SelfCarePeach())
    else if key == "sky_blue" then Some(SelfCareSkyBlue())
    else if key == "cream" then Some(SelfCareCream())
    else None
  }

  function SelfCarePink(): seq<string> {
    [
      "Rose bath bombs " + "🛁",
      "Pink face masks " + "🌸",
      "Berry lip balm 💋"
    ]
  }

  function SelfCareLavender(): seq<string> {
    [
      "Lavender spray 😴",
      "Aromatherapy 🪻",
      "Purple clips 💜"
    ]
  }

  function SelfCareMint(): seq<string> {
    [
      "Green tea care 🍵",
      "Eucalyptus 🌿",
      "Jade roller 💎"
    ]
  }

  function SelfCarePeach(): seq<string> {
    [
      "Vitamin C ✨",
      "Peach butter 🍑",
      "Coral nails 💅"
    ]
  }

  function SelfCareSkyBlue(): seq<string> {
    [
      "Ocean sounds 🌊",
      "Blue glasses 👓",
      "Cloud vibes ☁️"
    ]
  }

  function SelfCareCream(): seq<string> {
    [
      "Vanilla candle " + "🕯️",
      "Cozy blanket 🧸",
      "Honey milk 🍯"
    ]
  }

  /** `dateIdeas[key]`: the list stored under `key`, if any. */
  function DateIdeasBySeason(key: string): Option<seq<string>> {
    if key == "spring" then Some(DateIdeasSpring())
    else if key == "summer" then Some(DateIdeasSummer())
    else if key == "autumn" then Some(DateIdeasAutumn())
    else if key == "winter" then Some(DateIdeasWinter())
    else None
  }

  function DateIdeasSpring(): seq<string> {
    [
      "Flower picnic 🌷",
      "Market date 🍓"
    ]
  }

  function DateIdeasSummer(): seq<string> {
    [
      "Beach sunset 🌅",
      "Ice cream 🍦"
    ]
  }

  function DateIdeasAutumn(): seq<string> {
    [
      "Café hopping ☕",
      "Pumpkin patch 🎃"
    ]
  }

  function DateIdeasWinter(): seq<string> {
    [
      "Hot chocolate 🍫",
      "Movie night 🎬"
    ]
  }

  /** `movieRecs[key]`: the list stored under `key`, if any. */
  function MovieRecs(key: string): Option<seq<string>> {
    if key == "romcom" then Some(MoviesRomcom())
    else if key == "fantasy" then Some(MoviesFantasy())
    else if key == "drama" then Some(MoviesDrama())
    else if key == "kdrama" then Some(MoviesKdrama())
    else None
  }

  function MoviesRomcom(): seq<string> {
    [
      "The Proposal 💍",
      "Crazy Rich " + "Asians 💎"
    ]
  }

  function MoviesFantasy(): seq<string> {
    [
      "Howl's Castle 🏰",
      "Spirited Away 🌊"
    ]
  }

  function MoviesDrama(): seq<string> {
    [
      "Pride & " + "Prejudice 📚",
      "La La Land 🌃"
    ]
  }

  function MoviesKdrama(): seq<string> {
    [
      "Crash Landing 💕",
      "Goblin 👻"
    ]
  }

  /** `musicRecs[key]`: the list stored under `key`, if any. */
  function MusicRecs(key: string): Option<seq<string>> {
    if key == "pop" then Some(MusicPop())
    else if key == "kpop" then Some(MusicKpop())
    else if key == "indie" then Some(MusicIndie())
    else if key == "lofi" then Some(MusicLofi())
    else None
  }

  function MusicPop(): seq<string> {
    [
      "Ariana Grande 💅",
      "Dua Lipa 🪩"
    ]
  }

  function MusicKpop(): seq<string> {
    [
      "BLACKPINK 💖",
      "NewJeans 🎀"
    ]
  }

  function MusicIndie(): seq<string> {
    [
      "Clairo 🌙",
      "Phoebe Bridgers " + "🌧️"
    ]
  }

  function MusicLofi(): seq<string> {
    [
      "Study Vibes 📚",
      "Rainy Lo-Fi 🌧️"
    ]
  }

  /** `shoppingRecs[key]`: the list stored under `key`, if any. */
  function ShoppingRecs(key: string): Option<seq<string>> {
    if key == "pink" then Some(ShoppingPink())
    else if key == "lavender" then Some(ShoppingLavender())
    else if key == "mint" then Some(ShoppingMint())
    else if key == "peach" then Some(ShoppingPeach())
    else if key == "sky_blue" then Some(ShoppingSkyBlue())
    else if key == "cream" then Some(ShoppingCream())
    else None
  }

  function ShoppingPink(): seq<string> {
    [
      "Pink cardigan 🌸",
      "Heart shades 💕"
    ]
  }

  function ShoppingLavender(): seq<string> {
    [
      "Butterfly clips " + "🦋",
      "Lilac dress 💜"
    ]
  }

  function ShoppingMint(): seq<string> {
    [
      "Sage scrunchies " + "🌿"
    ]
  }

  function ShoppingPeach(): seq<string> {
    [
      "Peachy blush 🍑"
    ]
  }

  function ShoppingSkyBlue(): seq<string> {
    [
      "Cloud case ☁️"
    ]
  }

  function ShoppingCream(): seq<string> {
    [
      "Beige sweater 🧸"
    ]
  }


  /** The home page's tables. */
  function HomeTables(): Tables {
    Tables(SelfCareByColor, DateIdeasBySeason, MovieRecs, MusicRecs, ShoppingRecs)
  }

  /** The fixed Activities list. */
  function Activities(): seq<string> {
    ["Solo journal ✍️", "Dance party 💃", "Pinterest 📌"]
  }

  // ---------------------------------------------------------------------------
  // The entries
  // ---------------------------------------------------------------------------

  /** `preferences?.field`: nothing when the record itself is null. */
  function OptField(prefs: Option<Answers>, k: Key): (r: Option<string>)
    ensures prefs.None? ==> r.None?
  {
    if prefs.None? then None else Field(prefs.value, k)
  }

  function SelfCareItems(table: Table, prefs: Option<Answers>): seq<string> {
    LookupOr(table, OptField(prefs, FavoriteColor), "pink")
  }

  function DateItems(table: Table, prefs: Option<Answers>): seq<string> {
    LookupOr(table, OptField(prefs, FavoriteSeason), "spring")
  }

  function MovieItems(table: Table, prefs: Option<Answers>): seq<string> {
    LookupOr(table, OptField(prefs, FavoriteMovieGenre), "romcom")
  }

  function MusicItems(table: Table, prefs: Option<Answers>): seq<string> {
    LookupOr(table, OptField(prefs, FavoriteMusic), "pop")
  }

  function ShoppingItems(table: Table, prefs: Option<Answers>): seq<string> {
    LookupOr(table, OptField(prefs, FavoriteColor), "pink")
  }

  /** The titles of the six cards, in push order. */
  function TitleOrder(): seq<string> {
    ["Self-Care 💆‍♀️", "Date Ideas 💕", "Watch 🎬", "Music 🎧", "Shopping 🛍️", "Activities 🌈"]
  }

  /** `getSuggestions` over the tables `t`: six cards pushed in a fixed order. */
  method GetSuggestions(t: Tables, prefs: Option<Answers>) returns (suggestions: seq<Suggestion>)
    ensures |suggestions| == 6
    ensures forall i :: 0 <= i < 6 ==> suggestions[i].title == TitleOrder()[i]
    ensures suggestions[0].items == SelfCareItems(t.selfCareByColor, prefs)
    ensures suggestions[1].items == DateItems(t.dateIdeas, prefs)
    ensures suggestions[2].items == MovieItems(t.movieRecs, prefs) && suggestions[3].items == MusicItems(t.musicRecs, prefs)
    ensures suggestions[4].items == ShoppingItems(t.shoppingRecs, prefs) && suggestions[5].items == Activities()
  {
    suggestions := [];
    suggestions := suggestions + [Suggestion("Self-Care 💆‍♀️", SelfCareItems(t.selfCareByColor, prefs), "from-pink-400/20 " + "to-rose-400/20")];
    suggestions := suggestions + [Suggestion("Date Ideas 💕", DateItems(t.dateIdeas, prefs), "from-orange-400/20 " + "to-amber-400/20")];
    suggestions := suggestions + [Suggestion("Watch 🎬", MovieItems(t.movieRecs, prefs), "from-purple-400/20 " + "to-violet-400/20")];
    suggestions := suggestions + [Suggestion("Music 🎧", MusicItems(t.musicRecs, prefs), "from-cyan-400/20 " + "to-blue-400/20")];
    suggestions := suggestions + [Suggestion("Shopping 🛍️", ShoppingItems(t.shoppingRecs, prefs), "from-rose-400/20 " + "to-pink-400/20")];
    suggestions := suggestions + [Suggestion("Activities 🌈", Activities(), "from-emerald-400/20 " + "to-teal-400/20")];
  }

  // ---------------------------------------------------------------------------
  // Properties
  // ---------------------------------------------------------------------------

  /** A null preferences record gives the pink, spring, rom-com, pop and pink lists. */
  lemma NullPreferencesGiveDefaults()
    ensures SelfCareItems(SelfCareByColor, None) == SelfCarePink()
    ensures DateItems(DateIdeasBySeason, None) == DateIdeasSpring()
    ensures MovieItems(MovieRecs, None) == MoviesRomcom()
    ensures MusicItems(MusicRecs, None) == MusicPop()
    ensures ShoppingItems(ShoppingRecs, None) == ShoppingPink()
  {
  }

  /** Horror and animation are not keys of this movie table, so they get the rom-com list. */
  lemma MissingGenresFallBack(prefs: Answers)
    requires FavoriteMovieGenre in prefs && prefs[FavoriteMovieGenre] in ["horror", "animation"]
    ensures MovieItems(MovieRecs, Some(prefs)) == MoviesRomcom()
  {
  }

  /** R&B and classical are not keys of this music table, so they get the pop list. */
  lemma MissingMusicFallsBack(prefs: Answers)
    requires FavoriteMusic in prefs && prefs[FavoriteMusic] in ["rnb", "classical"]
    ensures MusicItems(MusicRecs, Some(prefs)) == MusicPop()
  {
  }

  /** Pink and lavender shopping lists hold two items; mint, peach, sky blue and cream hold one. */
  lemma ShoppingListSizes(color: string)
    ensures ShoppingRecs(color).Some? ==>
              (|ShoppingRecs(color).value| == 2 <==> color == "pink" || color == "lavender")
    ensures ShoppingRecs(color).Some? ==> 1 <= |ShoppingRecs(color).value| <= 2
  {
  }

  /** Every date-idea list has two items and every self-care list three. */
  lemma ListSizes(key: string)
    ensures DateIdeasBySeason(key).Some? ==> |DateIdeasBySeason(key).value| == 2
    ensures SelfCareByColor(key).Some? ==> |SelfCareByColor(key).value| == 3
  {
  }
}
