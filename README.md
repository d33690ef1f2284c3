# TopRestaurants state, modelled in Dafny

This project models the state kept by the `TopRestaurants` component of a
travel-companion web client (`Restaurants.jsx`). The component lists the
venues near a location and shows a "saved" heart on each one. The heart is
kept in step with a per-user saved-store on the back end.

The state has two independent parts:

- the **venue loader** (`restaurants`, `loading`, `error`), driven by the
  `location` prop;
- the **saved set** (`savedRestaurants`), loaded for the `userid` prop and
  changed by `toggleSaveRestaurant`. The view reads it as membership of
  `String(restaurant.id)`.

Files:

- `ids.dfy` (module `Ids`): the raw identifier `Id = Num(int) | Str(string)`.
  It also defines `ToStr`, which stands for JavaScript `String(...)`, and proves
  that a number's decimal string reads back as that number.
- `remote.dfy` (module `Remote`): venue and saved-store records. It also has
  `Outcome<T> = Success(payload) | Failure`, which stands in for each awaited
  remote call.
- `saved_set.dfy` (module `SavedSet`): the saved set as a value. It covers
  the listing normalisation, the toggle's request and new set, the view's
  membership test, and the lemmas relating them.
- `component.dfy` (module `Component`): the class `TopRestaurants`, with the
  component's four state fields and its handlers as methods. Each handler
  runs as one sequential transition. The response of its network call is a
  parameter.

The class invariant `Valid()` says that every element of the saved set is a
string. The mixed use of raw and string identifiers is what makes this
invariant matter. The toggle tests and deletes the raw `restaurant.id`. It
stores and the view reads `String(restaurant.id)`. Under the invariant,
toggling round-trips for string identifiers (`StringIdRoundTrip`). It never
removes a numeric one (`NumericIdAlwaysSaves`, `NumericIdNeverUnsaves`).

Where the code and the system's design description disagree, the model
follows the code:

- A failed venue load keeps the previous venue list; it is not discarded.
- A failed saved-listing load keeps the previous set; it is not emptied. An
  empty `userid` also leaves the previous user's set in place.
- Only an empty `location` skips the load. A whitespace-only location is
  truthy in JavaScript and is requested.
- `loading` starts out `true`. It stays `true` if the location is empty.
- There is no stale-response guard and no per-venue in-flight rejection.
- Identifiers are not normalised on the toggle's read and delete paths (see
  Findings).

## Model

| member | source | states |
|---|---|---|
| `Ids.ToStr` | Restaurants.jsx:89 | `String(id)` returns a string identifier unchanged. It maps a number to an integer literal that parses back to that number. |
| `Ids.IntToDecimalRoundTrip` | Restaurants.jsx:47 | Parsing `String(n)` of a whole number gives back `n`. |
| `Ids.IntToDecimalInjective` | Restaurants.jsx:139 | Distinct numbers have distinct `String` forms. |
| `Ids.ToStrAgrees` | Restaurants.jsx:139-140 | Two raw identifiers have the same `String` form exactly when they are equal, or one is a number and the other is its decimal string. |
| `SavedSet.Key` | Restaurants.jsx:113 | The stored element for an identifier is a string with the same `String` form. For a string identifier it is the identifier itself. |
| `SavedSet.SavedIds` | Restaurants.jsx:46-48 | The set built from the listing holds only strings. It holds `String(r.restaurant_id)` for every record `r`, and nothing that is not such a string. |
| `SavedSet.ToggleEffect` | Restaurants.jsx:83-112 | Without a user the toggle redirects to `/signin` and posts nothing. Otherwise it posts a delete exactly when the raw id is in the set, else a save. Either request carries the user and the raw id. |
| `SavedSet.Toggled` | Restaurants.jsx:91-117 | Without a user, or when the call fails, the set is unchanged. On success it adds at most `String(id)` and removes at most the raw id. |
| `SavedSet.ToggledKeepsAllStrings` | Restaurants.jsx:97-113 | Every toggle keeps the all-strings invariant. |
| `SavedSet.RawTestVersusView` | Restaurants.jsx:92-140 | Under the invariant, the raw test at line 92 succeeds exactly for string ids that the view shows as saved. |
| `SavedSet.NumericIdAlwaysSaves` | Restaurants.jsx:92-113 | Under the invariant, a numeric id always takes the save branch, and the set never shrinks. |
| `SavedSet.NumericIdNeverUnsaves` | Restaurants.jsx:92-140 | Under the invariant, once the view shows a numeric venue as saved, no toggle outcome makes it show unsaved. |
| `SavedSet.NumericIdExample` | Restaurants.jsx:92 | Venue 42 listed as `"42"` shows as saved, yet its toggle posts a save and leaves the set unchanged. |
| `SavedSet.StringIdToggleFlipsView` | Restaurants.jsx:92-140 | For a string id, a successful toggle flips what the view shows. |
| `SavedSet.StringIdRoundTrip` | Restaurants.jsx:92-113 | For a string id, two successful toggles restore the original set. |
| `SavedSet.ViewAfterToggle` | Restaurants.jsx:97-140 | A successful save always makes the view show the venue as saved. A successful delete of a string id makes it show unsaved. |
| `SavedSet.ViewIgnoresRepresentation` | Restaurants.jsx:139-140 | Venues whose ids have the same `String` form look the same in the view. |
| `SavedSet.ListingThenSaveExample` | Restaurants.jsx:38-140 | Listing `[{restaurant_id: "A"}]` shows A saved and B not. Toggling B posts a save and, on success, shows both saved. |
| `SavedSet.ToggledNormalized` | Restaurants.jsx:91-117 | The corrected toggle changes the set only on success, and only at `String(id)`. |
| `SavedSet.NormalizedToggleRoundTrip` | Restaurants.jsx:92-113 | With normalisation, every successful toggle flips the view and two restore the set, for any id. On string ids it equals the toggle as written. |
| `Component.TopRestaurants.constructor` | Restaurants.jsx:8-11 | Initial state: no venues, empty saved set, no error, loading. |
| `Component.TopRestaurants.BeginFetch` | Restaurants.jsx:16-19 | An empty location issues no request and changes nothing. Otherwise it sets `loading` and clears `error`. |
| `Component.TopRestaurants.CompleteFetch` | Restaurants.jsx:25-34 | Success replaces the venue list with the response, in order. Failure keeps the list and sets the fixed message. `loading` ends false. |
| `Component.TopRestaurants.FetchRestaurants` | Restaurants.jsx:16-35 | Runs the whole venue effect. It issues a request iff the location is non-empty. With no request, nothing changes. After a request, `loading` is false and the list and error follow the outcome. The saved set is untouched. |
| `Component.TopRestaurants.FetchSaved` | Restaurants.jsx:38-56 | Runs a request iff the user id is non-empty. On success the set becomes `SavedIds` of the listing. Otherwise it is unchanged. |
| `Component.TopRestaurants.ToggleSaveRestaurant` | Restaurants.jsx:82-118 | Issues `ToggleEffect` of the set before the call. The new set is `Toggled`, so a failed call leaves it exactly as before. The all-strings invariant is kept. |

## Findings

| source | as written | input that shows it | evidently intended | confidence | as-written member | corrected member |
|---|---|---|---|---|---|---|
| Restaurants.jsx:92 | The toggle tests and deletes the raw `restaurant.id`. The set only ever holds `String(...)` forms (lines 47, 113), and the heart reads `String(restaurant.id)` (line 140). | A venue with numeric id `42` whose listing row is `{restaurant_id: 42}`. The set is `{"42"}`, the heart shows saved, and clicking posts another save. The venue can never be unsaved. | Test and delete `String(restaurant.id)`, the same form that is stored and displayed. | medium, not executed: back ends that only return string ids never trigger it | `SavedSet.NumericIdExample` | `SavedSet.NormalizedToggleRoundTrip` |

`Component.TopRestaurants.ToggleSaveRestaurant` keeps the as-written toggle
because it models the component's code. The corrected toggle,
`SavedSet.ToggledNormalized`, agrees with it on every string identifier.

## Left out

- The rendered markup, styling, icons and the image placeholder swap
  (Restaurants.jsx:120-244). The only logic in the view is the saved test,
  `SavedSet.IsSaved`.
- `Breadcrumbs.jsx`, a banner with no logic.
- `navigateToGoogleMaps` and `shareRestaurant`. They call browser globals
  (`window.open`, `navigator.share`, `alert`) and format floating-point
  coordinates.
- The HTTP requests: URLs, query parameters, the `budget = 2` constant, and
  the save request's denormalised venue fields. Each call is reduced to its
  `Outcome`. The toggle reports the request it issues as an `Effect` holding
  the user and the raw id.
- `console.error` logging and the `alert` before the sign-in redirect. The
  redirect itself is the `NavigateTo("/signin")` effect.
- React's effect scheduling, overlapping responses and concurrent toggles.
  The code has no stale-response guard and no in-flight rejection, so each
  handler runs here as one atomic transition. Interleavings are not modelled.
- Falsy props: an absent, `null` or `undefined` location or user id is
  represented by the empty string.
- `Ids.ToStr`: covers whole-number identifiers only. JavaScript's `String`
  of fractional numbers, exponent notation, `NaN` or `-0` is not modelled.
