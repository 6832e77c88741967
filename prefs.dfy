/**
 * The user-preference tools (tools/prefs.py): `save_preference`, an upsert
 * with partial-update semantics, and `get_preferences`, a lookup that falls
 * back to an all-empty record.
 *
 * The database is an in-memory table: a set of known user ids (the `users`
 * table) and a map from user id to that user's preference row.
 */
module Prefs {
  import opened Wrappers
  import opened Store

  /** The elements of a Python list argument, as `set(xs)` sees them. */
  function Elems(xs: seq<string>): (s: set<string>)
    ensures forall x :: x in s <==> x in xs
  {
    set x | x in xs
  }

  /** `stored or []`: a NULL list column reads as the empty list. */
  function OrEmpty(stored: Option<set<string>>): (s: set<string>)
    ensures stored.None? ==> s == {}
    ensures stored.Some? ==> s == stored.value
  {
    stored.GetOr({})
  }

  /**
   * The arguments of one `save_preference` call besides `user_id`;
   * `None` means "leave this column as it is".
   */
  datatype Update = Update(
    cuisinesLiked: Option<seq<string>>,
    cuisinesDisliked: Option<seq<string>>,
    dietaryRestrictions: Option<seq<string>>,
    priceRange: Option<string>,
    likedPlaceIds: Option<seq<string>>,
    dislikedPlaceIds: Option<seq<string>>
  ) {

    /** The argument for the column named by `f`. */
    function List(f: ListField): Option<seq<string>> {
      match f
      case CuisinesLiked => cuisinesLiked
      case CuisinesDisliked => cuisinesDisliked
      case DietaryRestrictions => dietaryRestrictions
      case LikedPlaceIds => likedPlaceIds
      case DislikedPlaceIds => dislikedPlaceIds
    }
  }

  /** The dictionary `get_preferences` returns. */
  datatype Preferences = Preferences(
    userId: string,
    cuisinesLiked: set<string>,
    cuisinesDisliked: set<string>,
    dietaryRestrictions: set<string>,
    priceRange: Option<string>,
    likedPlaceIds: set<string>,
    dislikedPlaceIds: set<string>
  ) {

    /** The entry for the list named by `f`. */
    function List(f: ListField): set<string> {
      match f
      case CuisinesLiked => cuisinesLiked
      case CuisinesDisliked => cuisinesDisliked
      case DietaryRestrictions => dietaryRestrictions
      case LikedPlaceIds => likedPlaceIds
      case DislikedPlaceIds => dislikedPlaceIds
    }
  }

  /** The dictionary `save_preference` returns. */
  datatype SaveResult = SaveResult(status: string, userId: string)

  /**
   * One list column after a save: an absent argument leaves it alone, a
   * present one replaces it by the union of what was stored (NULL read as
   * empty) and the argument's elements.
   */
  function MergeList(stored: Option<set<string>>, arg: Option<seq<string>>): (r: Option<set<string>>)
    ensures arg.None? ==> r == stored
    ensures arg.Some? ==> r.Some? && forall x :: x in r.value <==> x in OrEmpty(stored) || x in arg.value
  {
    match arg
    case None => stored
    case Some(xs) => Some(OrEmpty(stored) + Elems(xs))
  }

  /** The row object after the field assignments of one `save_preference` call. */
  function ApplyUpdate(row: Row, upd: Update): (r: Row)
    ensures forall f: ListField :: upd.List(f).None? ==> r.List(f) == row.List(f)
    ensures forall f: ListField :: upd.List(f).Some? ==>
      r.List(f) == Some(OrEmpty(row.List(f)) + Elems(upd.List(f).value))
    ensures r.priceRange == if upd.priceRange.Some? then upd.priceRange else row.priceRange
    ensures row.NoNullLists() ==> r.NoNullLists()
  {
    Row(
      MergeList(row.cuisinesLiked, upd.cuisinesLiked),
      MergeList(row.cuisinesDisliked, upd.cuisinesDisliked),
      MergeList(row.dietaryRestrictions, upd.dietaryRestrictions),
      if upd.priceRange.Some? then upd.priceRange else row.priceRange,
      MergeList(row.likedPlaceIds, upd.likedPlaceIds),
      MergeList(row.dislikedPlaceIds, upd.dislikedPlaceIds)
    )
  }

  /**
   * The preference table after `save_preference(userId, upd)` commits: the
   * user's row is updated in place, or created and inserted when missing;
   * every other row is as it was.
   */
  function Saved(rows: map<string, Row>, userId: string, upd: Update): (r: map<string, Row>)
    ensures r.Keys == rows.Keys + {userId}
    ensures forall v :: v in rows && v != userId ==> r[v] == rows[v]
    ensures userId in rows ==> r[userId] == ApplyUpdate(rows[userId], upd)
    ensures userId !in rows ==> r[userId] == FillDefaults(ApplyUpdate(NewRow(), upd))
    ensures (forall v :: v in rows ==> rows[v].NoNullLists()) ==>
      forall v :: v in r ==> r[v].NoNullLists()
  {
    if userId in rows then rows[userId := ApplyUpdate(rows[userId], upd)]
    else rows[userId := FillDefaults(ApplyUpdate(NewRow(), upd))]
  }

  /**
   * `get_preferences(userId)`: the user's stored row with NULL lists read as
   * empty, or the all-empty record when the user has no row.
   */
  function GetPreferences(rows: map<string, Row>, userId: string): (p: Preferences)
    ensures p.userId == userId
    ensures forall f: ListField, x :: x in p.List(f) <==>
      userId in rows && rows[userId].List(f).Some? && x in rows[userId].List(f).value
    ensures p.priceRange == if userId in rows then rows[userId].priceRange else None
  {
    if userId !in rows then
      Preferences(userId, {}, {}, {}, None, {}, {})
    else
      var row := rows[userId];
      Preferences(
        userId,
        OrEmpty(row.cuisinesLiked),
        OrEmpty(row.cuisinesDisliked),
        OrEmpty(row.dietaryRestrictions),
        row.priceRange,
        OrEmpty(row.likedPlaceIds),
        OrEmpty(row.dislikedPlaceIds)
      )
  }

  /**
   * The field assignments of `save_preference` on the row object: each list
   * given is merged into the stored one, `price_range` is overwritten when
   * given, and everything passed as `None` is left untouched.
   */
  method UpdateRow(row: Row, upd: Update) returns (pref: Row)
    ensures pref == ApplyUpdate(row, upd)
  {
    pref := row;
    if upd.cuisinesLiked.Some? {
      var existing := OrEmpty(pref.cuisinesLiked);
      pref := pref.(cuisinesLiked := Some(existing + Elems(upd.cuisinesLiked.value)));
    }
    if upd.cuisinesDisliked.Some? {
      var existing := OrEmpty(pref.cuisinesDisliked);
      pref := pref.(cuisinesDisliked := Some(existing + Elems(upd.cuisinesDisliked.value)));
    }
    if upd.dietaryRestrictions.Some? {
      var existing := OrEmpty(pref.dietaryRestrictions);
      pref := pref.(dietaryRestrictions := Some(existing + Elems(upd.dietaryRestrictions.value)));
    }
    if upd.priceRange.Some? {
      pref := pref.(priceRange := upd.priceRange);
    }
    if upd.likedPlaceIds.Some? {
      var existing := OrEmpty(pref.likedPlaceIds);
      pref := pref.(likedPlaceIds := Some(existing + Elems(upd.likedPlaceIds.value)));
    }
    if upd.dislikedPlaceIds.Some? {
      var existing := OrEmpty(pref.dislikedPlaceIds);
      pref := pref.(dislikedPlaceIds := Some(existing + Elems(upd.dislikedPlaceIds.value)));
    }
  }

  /** The two tables the preference tools touch. */
  class PreferenceStore {
    /** Ids in the `users` table. */
    var users: set<string>
    /** The `preferences` table, keyed by owning user id. */
    var rows: map<string, Row>

    /**
     * Every preference row belongs to a known user (the foreign key), and
     * every row this code wrote has no NULL list column.
     */
    ghost predicate Valid()
      reads this
    {
      && rows.Keys <= users
      && forall u :: u in rows ==> rows[u].NoNullLists()
    }

    /** A fresh, empty database. */
    constructor ()
      ensures Valid()
      ensures users == {} && rows == map[]
    {
      users := {};
      rows := map[];
    }

    /**
     * In a valid store, the lookup of a user with a row gives exactly the
     * stored sets and price range: the `or []` fallback is never needed.
     */
    lemma StoredUserLookup(userId: string)
      requires Valid()
      requires userId in rows
      ensures forall f: ListField :: GetPreferences(rows, userId).List(f) == rows[userId].List(f).value
      ensures GetPreferences(rows, userId).priceRange == rows[userId].priceRange
    {
    }

    /**
     * `save_preference`: creates the user and the preference row when
     * missing, merges each given list into the stored one, overwrites
     * `price_range` when given, and commits.
     */
    method SavePreference(
      userId: string,
      cuisinesLiked: Option<seq<string>>,
      cuisinesDisliked: Option<seq<string>>,
      dietaryRestrictions: Option<seq<string>>,
      priceRange: Option<string>,
      likedPlaceIds: Option<seq<string>>,
      dislikedPlaceIds: Option<seq<string>>
    ) returns (r: SaveResult)
      requires Valid()
      modifies this
      ensures Valid()
      ensures users == old(users) + {userId}
      ensures rows == Saved(old(rows), userId,
        Update(cuisinesLiked, cuisinesDisliked, dietaryRestrictions,
               priceRange, likedPlaceIds, dislikedPlaceIds))
      ensures r == SaveResult("ok", userId)
    {
      if userId !in users {
        users := users + {userId};
      }

      var isNew := userId !in rows;
      var pref := if isNew then NewRow() else rows[userId];
      pref := UpdateRow(pref, Update(cuisinesLiked, cuisinesDisliked, dietaryRestrictions,
                                     priceRange, likedPlaceIds, dislikedPlaceIds));

      // The commit: a new row takes its column defaults on INSERT.
      rows := rows[userId := if isNew then FillDefaults(pref) else pref];
      r := SaveResult("ok", userId);
    }
  }
}
