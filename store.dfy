/**
 * The shape of one row of the `preferences` table (memory/store.py).
 *
 * Each of the five list columns is a nullable JSON list. The code only ever
 * rebuilds such a list as `list(set(...))`, so the order of its elements is
 * unspecified and it never holds a duplicate: the model keeps each list as a
 * set. `None` stands for SQL NULL.
 */
module Store {
  import opened Wrappers

  /** The five list-valued columns of a preference row. */
  datatype ListField =
    | CuisinesLiked
    | CuisinesDisliked
    | DietaryRestrictions
    | LikedPlaceIds
    | DislikedPlaceIds

  /** A stored preference row, without its id, owner key and timestamps. */
  datatype Row = Row(
    cuisinesLiked: Option<set<string>>,
    cuisinesDisliked: Option<set<string>>,
    dietaryRestrictions: Option<set<string>>,
    priceRange: Option<string>,
    likedPlaceIds: Option<set<string>>,
    dislikedPlaceIds: Option<set<string>>
  ) {

    /** The column named by `f`. */
    function List(f: ListField): Option<set<string>> {
      match f
      case CuisinesLiked => cuisinesLiked
      case CuisinesDisliked => cuisinesDisliked
      case DietaryRestrictions => dietaryRestrictions
      case LikedPlaceIds => likedPlaceIds
      case DislikedPlaceIds => dislikedPlaceIds
    }

    /** No list column is NULL. */
    predicate NoNullLists() {
      && cuisinesLiked.Some?
      && cuisinesDisliked.Some?
      && dietaryRestrictions.Some?
      && likedPlaceIds.Some?
      && dislikedPlaceIds.Some?
    }
  }

  /**
   * A freshly constructed, not yet inserted `Preference` object: every
   * attribute is still unset.
   */
  function NewRow(): (r: Row)
    ensures forall f: ListField :: r.List(f) == None
    ensures r.priceRange == None
  {
    Row(None, None, None, None, None, None)
  }

  /**
   * What the INSERT of a new row stores: each list column left unset takes
   * its column default, the empty list; `price_range` has no default and
   * stays NULL.
   */
  function FillDefaults(row: Row): (r: Row)
    ensures r.NoNullLists()
    ensures forall f: ListField :: row.List(f).Some? ==> r.List(f) == row.List(f)
    ensures forall f: ListField :: row.List(f).None? ==> r.List(f) == Some({})
    ensures r.priceRange == row.priceRange
  {
    Row(
      Some(row.cuisinesLiked.GetOr({})),
      Some(row.cuisinesDisliked.GetOr({})),
      Some(row.dietaryRestrictions.GetOr({})),
      row.priceRange,
      Some(row.likedPlaceIds.GetOr({})),
      Some(row.dislikedPlaceIds.GetOr({}))
    )
  }
}
