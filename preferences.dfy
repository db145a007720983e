/**
 * The preferences record shared by the quiz and by both suggestion builders:
 * the fields of `QuizAnswer`, which are also the columns of a saved
 * preferences row.
 */
module Preferences {
  import opened Wrappers

  datatype Key =
    | FavoriteColor | FavoriteFlower | FavoriteSeason | FavoriteMovieGenre | FavoriteMusic
    | FavoriteHobby | FavoriteFood | FavoriteDrink | FavoriteDessert

  /** A preferences record; a field missing from the map is `undefined` (or `null` in a saved row). */
  type Answers = map<Key, string>

  /** Reading one field of the record. */
  function Field(a: Answers, k: Key): (r: Option<string>)
    ensures r.Some? <==> k in a
    ensures r.Some? ==> r.value == a[k]
  {
    if k in a then Some(a[k]) else None
  }

  /** A lookup table of a suggestion builder: the list stored under each key, if any. */
  type Table = string -> Option<seq<string>>

  /**
   * `table[key] || table[fallbackKey]`: the list stored under the answer, or
   * the fallback key's list when the answer is missing or not a key of the
   * table. Any array, even an empty one, is truthy, so `||` falls back only
   * when the lookup is `undefined`.
   */
  function LookupOr(table: Table, key: Option<string>, fallbackKey: string): seq<string> {
    if key.Some? && table(key.value).Some? then table(key.value).value else table(fallbackKey).GetOr([])
  }

  /** The five tables a suggestion builder reads, by colour, season, genre, music and colour. */
  datatype Tables = Tables(selfCareByColor: Table, dateIdeas: Table, movieRecs: Table, musicRecs: Table, shoppingRecs: Table)
}
