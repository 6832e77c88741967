# gourmAgent user-preference store, in Dafny

This project models the user-preference tools of the gourmAgent restaurant
agent (`packages/agent/src/gourmAgent/tools/prefs.py`):

- `save_preference(user_id, ...)` is an upsert with partial-update semantics.
  It creates the user and the preference row when either is missing. It
  merges each list argument that is not `None` into the stored list by set
  union, and it overwrites `price_range` when one is given. A field passed as
  `None` is left as it was. On success it answers `{"status": "ok", "user_id": ...}`.
- `get_preferences(user_id)` is a lookup. A NULL list column reads as `[]`.
  An unknown user gets an all-empty record with `price_range = None`.

The database is an in-memory table. The `PreferenceStore` class holds the
`users` table as a set of ids and the `preferences` table as a map from user
id to a `Row`. A `Row` has the five nullable list columns and the nullable
`price_range` of `Preference` (`memory/store.py`). `None` stands for SQL NULL.

Files:

- `wrappers.dfy`: `Option`, which stands in for Python's `None`.
- `store.dfy`: the preference row, a freshly constructed row object, and the
  column defaults applied when a new row is inserted.
- `prefs.dfy`: the merge rules and the table after a save (`Saved`). Also the
  lookup (`GetPreferences`), and the `PreferenceStore` class whose
  `SavePreference` method is proved against `Saved`.
- `prefs_properties.dfy`: properties relating saves and lookups. These cover
  saves over arbitrary sequences, and the scenarios of the package's unit
  tests.

Design points of the model:

- The source rebuilds every list as `list(set(existing) | set(new))`. The
  stored order is therefore unspecified and a stored list never holds a
  duplicate. The model keeps each list column as a `set<string>`: absence of
  duplicates holds by construction, and every property is about membership.
- A new `Preference(user_id=...)` object has every attribute unset until it is
  inserted (`NewRow`). The `or []` in the merge treats those unset lists as
  empty. On INSERT, each list column still unset takes its column default, the
  empty list (`FillDefaults`); `price_range` has no default and stays NULL.
  `PreferenceStore.Valid` records that every row this code writes has no NULL
  list column, and that every row belongs to a known user.
- `price_range` is not checked against `"$"` … `"$$$$"` in code; the
  enumeration appears only in the tool's JSON schema and in a comment in
  memory/store.py. Any string given overwrites the stored value, the empty
  string included, and so it does here.
- An empty list argument is not `None`. It turns a NULL column into an empty
  list and otherwise changes nothing.

## Model

| member | source | states |
|---|---|---|
| `Store.NewRow` | packages/agent/src/gourmAgent/tools/prefs.py:34-36 | a freshly constructed preference object has every list column and `price_range` unset |
| `Store.FillDefaults` | packages/agent/src/gourmAgent/memory/store.py:47-52 | on insert, an unset list column becomes the empty list, a set one keeps its value, and `price_range` is kept (no default) |
| `Prefs.Elems` | packages/agent/src/gourmAgent/tools/prefs.py:40 | `set(xs)` holds exactly the elements of the argument list |
| `Prefs.OrEmpty` | packages/agent/src/gourmAgent/tools/prefs.py:39 | `stored or []`: a NULL column reads as empty, a present one as its value |
| `Prefs.MergeList` | packages/agent/src/gourmAgent/tools/prefs.py:38-40 | an absent argument leaves the column as it was; a present one makes it hold exactly the old elements (NULL read as empty) and the argument's |
| `Prefs.ApplyUpdate` | packages/agent/src/gourmAgent/tools/prefs.py:38-54 | for every list column: unchanged when its argument is `None`, old elements united with the argument's otherwise; `price_range` overwritten only when given; a row with no NULL list keeps none |
| `Prefs.UpdateRow` | packages/agent/src/gourmAgent/tools/prefs.py:38-54 | the six conditional field assignments leave the row object equal to `ApplyUpdate` of the old row |
| `Prefs.Saved` | packages/agent/src/gourmAgent/tools/prefs.py:27-56 | after a save the user has a row (updated if present, created with defaults if absent); every other user's row is unchanged; no NULL list column is introduced |
| `Prefs.GetPreferences` | packages/agent/src/gourmAgent/tools/prefs.py:60-85 | echoes the user id; a list holds an element exactly when the user's stored column holds it (unknown user or NULL column: empty); `price_range` is the stored one, `None` for an unknown user |
| `Prefs.PreferenceStore.constructor` | packages/agent/src/gourmAgent/memory/store.py:58-60 | a fresh, empty database has no users and no preference rows, and is valid |
| `Prefs.PreferenceStore.SavePreference` | packages/agent/src/gourmAgent/tools/prefs.py:14-57 | adds the user to `users`, leaves the preference table equal to `Saved` of the old table, keeps the foreign key and no-NULL invariant, and returns status `"ok"` with the input user id |
| `Prefs.PreferenceStore.StoredUserLookup` | packages/agent/src/gourmAgent/tools/prefs.py:77-85 | in a valid store, a user with a row gets exactly the stored sets and price range; the NULL fallback of `or []` is never taken |
| `PrefsProperties.UnknownUserGetsEmptyRecord` | packages/agent/src/gourmAgent/tools/prefs.py:66-76 | a user with no row gets five empty lists and no price range |
| `PrefsProperties.SaveThenGet` | packages/agent/src/gourmAgent/tools/prefs.py:28-54 | a lookup after a save sees each given list as the old list united with the argument, each list not given unchanged, and the given price range or the old one |
| `PrefsProperties.SaveLosesNothing` | packages/agent/src/gourmAgent/tools/prefs.py:38-54 | no element a lookup saw before a save is missing after it |
| `PrefsProperties.SaveKeepsOtherUsers` | packages/agent/src/gourmAgent/tools/prefs.py:33 | a save for one user changes nothing a lookup for another user sees |
| `PrefsProperties.SaveIdempotent` | packages/agent/src/gourmAgent/tools/prefs.py:38-54 | saving the same arguments twice leaves the same table as saving them once |
| `PrefsProperties.SaveAllLists` | packages/agent/src/gourmAgent/tools/prefs.py:38-54 | after any sequence of saves for a user, each list is the old one plus every element any save passed for it |
| `PrefsProperties.SaveAllPrice` | packages/agent/src/gourmAgent/tools/prefs.py:47-48 | after any sequence of saves, `price_range` is the last one given, or the old one when none was |
| `PrefsProperties.SaveAllKeepsOtherUsers` | packages/agent/src/gourmAgent/tools/prefs.py:33 | any sequence of saves for one user leaves every other user's lookup unchanged |
| `PrefsProperties.SaveOrderIrrelevantForLists` | packages/agent/src/gourmAgent/tools/prefs.py:40 | two saves in either order leave the same lists |
| `PrefsProperties.SaveAndRetrieve` | packages/agent/tests/test_agent.py:51-61 | after saving `["Japanese", "Korean"]` and `"$$"`, the lookup holds both cuisines and `"$$"` |
| `PrefsProperties.MergesLists` | packages/agent/tests/test_agent.py:63-69 | after saving `["Italian"]` and then `["Mexican"]`, the lookup holds both |
| `PrefsProperties.PartialUpdateKeepsLists` | packages/agent/tests/test_agent.py:71-78 | saving only `"$$"` after `["Thai"]` and `"$$$"` gives price `"$$"` and keeps `"Thai"` |

## Left out

- The order of elements in a stored or returned list: the source leaves it to Python's set iteration order, so the model keeps sets.
- The SQLAlchemy engine, sessions, transactions and `init_db` plumbing (memory/store.py); the model replaces them with the two in-memory tables of `PreferenceStore`.
- The row's surrogate `id`, and the `created_at` and `updated_at` timestamps: they come from the database and the clock, and no tool reads them.
- Several preference rows for one user: the schema allows them and the lookup takes `.first()`, but this code never creates a second row, so the model keeps one row per user.
- The JSON tool schemas (`TOOLS` in tools/prefs.py and tools/places.py): static data for the language model, with no behaviour.
- The agent loop (agent.py), which is driven by responses of a remote language model.
- The Google Places wrapper (tools/places.py), which calls an external service.
- The HTTP server (server.py), which only routes requests.
- The TypeScript gateway that calls `server.py` is outside the Python agent package and is not modelled.
- Concurrent calls: saves are modelled one at a time; two interleaved saves for one user can lose one save's list elements, so the lemmas hold for serialised calls.
- Database errors: a failing flush or commit raises instead of returning; `SavePreference` models the successful path.
