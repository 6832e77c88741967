/**
 * What `save_preference` and `get_preferences` promise together: a save is
 * visible to a later lookup, lists only grow (by set union), a field passed
 * as `None` keeps its value, `price_range` is last-writer-wins, repeating a
 * save changes nothing, and other users are never affected.
 */
module PrefsProperties {
  import opened Wrappers
  import opened Store
  import opened Prefs

  /** The elements a possibly absent list argument contributes. */
  function ArgElems(arg: Option<seq<string>>): (s: set<string>)
    ensures arg.None? ==> s == {}
    ensures arg.Some? ==> forall x :: x in s <==> x in arg.value
  {
    match arg
    case None => {}
    case Some(xs) => Elems(xs)
  }

  /** The table after the saves `upds` for `userId`, applied in order. */
  function SaveAll(rows: map<string, Row>, userId: string, upds: seq<Update>): (r: map<string, Row>)
    ensures r.Keys == if upds == [] then rows.Keys else rows.Keys + {userId}
    decreases |upds|
  {
    if upds == [] then rows
    else SaveAll(Saved(rows, userId, upds[0]), userId, upds[1..])
  }

  /** Every element any of `upds` passes for the list `f`. */
  function Collected(upds: seq<Update>, f: ListField): (s: set<string>)
    ensures forall x :: x in s <==> exists i :: 0 <= i < |upds| && x in ArgElems(upds[i].List(f))
    decreases |upds|
  {
    if upds == [] then {}
    else
      var rest := Collected(upds[1..], f);
      assert forall i :: 1 <= i < |upds| ==> upds[i] == upds[1..][i - 1];
      ArgElems(upds[0].List(f)) + rest
  }

  /** The last `price_range` any of `upds` passes, else `current`. */
  function LastPrice(upds: seq<Update>, current: Option<string>): (p: Option<string>)
    ensures (forall i :: 0 <= i < |upds| ==> upds[i].priceRange.None?) ==> p == current
    ensures upds != [] && upds[|upds| - 1].priceRange.Some? ==> p == upds[|upds| - 1].priceRange
    decreases |upds|
  {
    if upds == [] then current
    else LastPrice(upds[1..], if upds[0].priceRange.Some? then upds[0].priceRange else current)
  }

  /**
   * For a user with no stored row, the lookup gives the all-empty record.
   */
  lemma UnknownUserGetsEmptyRecord(rows: map<string, Row>, userId: string)
    requires userId !in rows
    ensures GetPreferences(rows, userId) == Preferences(userId, {}, {}, {}, None, {}, {})
  {
  }

  /**
   * A lookup right after a save sees the saved values: each list given is
   * the union of what the lookup saw before and the argument, each list not
   * given is unchanged, and `price_range` is the argument when given.
   */
  lemma SaveThenGet(rows: map<string, Row>, userId: string, upd: Update, f: ListField)
    ensures userId in Saved(rows, userId, upd)
    ensures GetPreferences(Saved(rows, userId, upd), userId).List(f)
         == GetPreferences(rows, userId).List(f) + ArgElems(upd.List(f))
    ensures GetPreferences(Saved(rows, userId, upd), userId).priceRange
         == if upd.priceRange.Some? then upd.priceRange else GetPreferences(rows, userId).priceRange
  {
  }

  /** No element stored before a save is lost by it. */
  lemma SaveLosesNothing(rows: map<string, Row>, userId: string, upd: Update, f: ListField)
    ensures GetPreferences(rows, userId).List(f) <= GetPreferences(Saved(rows, userId, upd), userId).List(f)
  {
  }

  /** A save changes nothing any other user's lookup sees. */
  lemma SaveKeepsOtherUsers(rows: map<string, Row>, userId: string, upd: Update, other: string)
    requires other != userId
    ensures GetPreferences(Saved(rows, userId, upd), other) == GetPreferences(rows, other)
  {
  }

  /** Repeating a save leaves the table exactly as saving once does. */
  lemma SaveIdempotent(rows: map<string, Row>, userId: string, upd: Update)
    ensures Saved(Saved(rows, userId, upd), userId, upd) == Saved(rows, userId, upd)
  {
  }

  /**
   * After any sequence of saves for one user, each of that user's lists is
   * what it was plus every element any of the saves passed for it.
   */
  lemma {:induction false} SaveAllLists(rows: map<string, Row>, userId: string, upds: seq<Update>, f: ListField)
    ensures GetPreferences(SaveAll(rows, userId, upds), userId).List(f)
         == GetPreferences(rows, userId).List(f) + Collected(upds, f)
    decreases |upds|
  {
    if upds != [] {
      SaveThenGet(rows, userId, upds[0], f);
      SaveAllLists(Saved(rows, userId, upds[0]), userId, upds[1..], f);
    }
  }

  /**
   * After any sequence of saves for one user, `price_range` is the last one
   * any save passed, or what it was when none did.
   */
  lemma {:induction false} SaveAllPrice(rows: map<string, Row>, userId: string, upds: seq<Update>)
    ensures GetPreferences(SaveAll(rows, userId, upds), userId).priceRange
         == LastPrice(upds, GetPreferences(rows, userId).priceRange)
    decreases |upds|
  {
    if upds != [] {
      SaveThenGet(rows, userId, upds[0], CuisinesLiked);
      SaveAllPrice(Saved(rows, userId, upds[0]), userId, upds[1..]);
    }
  }

  /** A sequence of saves for one user changes nothing another user sees. */
  lemma {:induction false} SaveAllKeepsOtherUsers(rows: map<string, Row>, userId: string, upds: seq<Update>, other: string)
    requires other != userId
    ensures GetPreferences(SaveAll(rows, userId, upds), other) == GetPreferences(rows, other)
    decreases |upds|
  {
    if upds != [] {
      SaveKeepsOtherUsers(rows, userId, upds[0], other);
      SaveAllKeepsOtherUsers(Saved(rows, userId, upds[0]), userId, upds[1..], other);
    }
  }

  /** The order of two saves does not matter to the lists they leave. */
  lemma SaveOrderIrrelevantForLists(rows: map<string, Row>, userId: string, a: Update, b: Update, f: ListField)
    ensures GetPreferences(Saved(Saved(rows, userId, a), userId, b), userId).List(f)
         == GetPreferences(Saved(Saved(rows, userId, b), userId, a), userId).List(f)
  {
  }

  /**
   * Saving two cuisines and a price range: the lookup afterwards holds both
   * cuisines and that price range.
   */
  lemma SaveAndRetrieve(rows: map<string, Row>)
    ensures var upd := Update(Some(["Japanese", "Korean"]), None, None, Some("$$"), None, None);
            var p := GetPreferences(Saved(rows, "user1", upd), "user1");
            "Japanese" in p.cuisinesLiked && "Korean" in p.cuisinesLiked && p.priceRange == Some("$$")
  {
  }

  /**
   * Two saves of single cuisines for one user: the lookup afterwards holds
   * both.
   */
  lemma MergesLists(rows: map<string, Row>)
    ensures var first := Update(Some(["Italian"]), None, None, None, None, None);
            var second := Update(Some(["Mexican"]), None, None, None, None, None);
            var p := GetPreferences(Saved(Saved(rows, "user2", first), "user2", second), "user2");
            "Italian" in p.cuisinesLiked && "Mexican" in p.cuisinesLiked
  {
  }

  /**
   * Saving only `price_range` overwrites it and leaves a list saved earlier
   * intact.
   */
  lemma PartialUpdateKeepsLists(rows: map<string, Row>)
    ensures var first := Update(Some(["Thai"]), None, None, Some("$$$"), None, None);
            var second := Update(None, None, None, Some("$$"), None, None);
            var p := GetPreferences(Saved(Saved(rows, "user3", first), "user3", second), "user3");
            p.priceRange == Some("$$") && "Thai" in p.cuisinesLiked
  {
  }
}
