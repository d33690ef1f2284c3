/** The saved-venue set of `TopRestaurants` as a value: how it is built from
    the saved-store listing, how `toggleSaveRestaurant` changes it, and how the
    view reads it. */
module SavedSet {
  import opened Ids
  import opened Remote

  /** Route the toggle redirects an anonymous user to. */
  const SignInPath := "/signin"

  /** What a toggle does to the outside world: it redirects to sign-in, or it
      posts a delete or a save request for the raw venue identifier. */
  datatype Effect =
    | NavigateTo(path: string)
    | PostDelete(userId: string, restaurantId: Id)
    | PostSave(userId: string, restaurantId: Id)

  /** The element stored for an identifier: `String(id)`. */
  function Key(id: Id): (k: Id)
    ensures k.Str? && ToStr(k) == ToStr(id)
    ensures id.Str? ==> k == id
  {
    Str(ToStr(id))
  }

  /** Every element of the set is a string (the initial empty set, the listing
      load and the save branch only ever insert strings). */
  predicate AllStrings(saved: set<Id>)
  {
    forall x :: x in saved ==> x.Str?
  }

  /** `new Set(response.data.map(r => String(r.restaurant_id)))`. */
  function SavedIds(records: seq<SavedRecord>): (ids: set<Id>)
    ensures AllStrings(ids)
    ensures forall r :: r in records ==> Key(r.restaurantId) in ids
    ensures forall x :: x in ids ==> exists r :: r in records && x == Key(r.restaurantId)
  {
    if records == [] then {}
    else
      var rest := SavedIds(records[1..]);
      assert forall r :: r in records[1..] ==> r in records;
      {Key(records[0].restaurantId)} + rest
  }

  /** The heart shown on a venue card: membership of `String(venue.id)`. */
  predicate IsSaved(saved: set<Id>, venue: Venue)
  {
    Key(venue.id) in saved
  }

  /** The request `toggleSaveRestaurant` issues: none without a user; otherwise
      a delete when the RAW identifier is a member, a save when it is not. */
  function ToggleEffect(saved: set<Id>, userId: string, venue: Venue): (e: Effect)
    ensures userId == "" <==> e.NavigateTo?
    ensures e.NavigateTo? ==> e.path == SignInPath
    ensures e.PostDelete? <==> userId != "" && venue.id in saved
    ensures !e.NavigateTo? ==> e.userId == userId && e.restaurantId == venue.id
  {
    if userId == "" then NavigateTo(SignInPath)
    else if venue.id in saved then PostDelete(userId, venue.id)
    else PostSave(userId, venue.id)
  }

  /** The saved set after `toggleSaveRestaurant(venue)` whose remote call
      resolved with `response`: it changes only after a successful call; a
      delete removes the raw identifier, a save adds its string form. */
  function Toggled(saved: set<Id>, userId: string, venue: Venue, response: Outcome<()>): (r: set<Id>)
    ensures userId == "" || response.Failure? ==> r == saved
    ensures r - saved <= {Key(venue.id)}
    ensures saved - r <= {venue.id}
  {
    if userId == "" || response.Failure? then saved
    else
      match ToggleEffect(saved, userId, venue)
      case PostDelete(_, id) => saved - {id}
      case PostSave(_, id) => saved + {Key(id)}
  }

  lemma ToggledKeepsAllStrings(saved: set<Id>, userId: string, venue: Venue, response: Outcome<()>)
    requires AllStrings(saved)
    ensures AllStrings(Toggled(saved, userId, venue, response))
  {
  }

  /** Under the all-strings invariant the raw membership test of the toggle
      succeeds exactly for string identifiers that the view shows as saved. */
  lemma RawTestVersusView(saved: set<Id>, venue: Venue)
    requires AllStrings(saved)
    ensures venue.id in saved <==> venue.id.Str? && IsSaved(saved, venue)
  {
  }

  /** A numeric identifier is never found by the raw test, so its toggle always
      posts a save and never shrinks the set. */
  lemma NumericIdAlwaysSaves(saved: set<Id>, userId: string, venue: Venue, response: Outcome<()>)
    requires AllStrings(saved) && venue.id.Num? && userId != ""
    ensures ToggleEffect(saved, userId, venue).PostSave?
    ensures saved <= Toggled(saved, userId, venue, response)
  {
  }

  /** Hence a numeric venue that the view shows as saved stays shown as saved
      whatever toggles follow. */
  lemma NumericIdNeverUnsaves(saved: set<Id>, userId: string, venue: Venue, response: Outcome<()>)
    requires AllStrings(saved) && venue.id.Num? && IsSaved(saved, venue)
    ensures IsSaved(Toggled(saved, userId, venue, response), venue)
  {
  }

  /** The concrete case: venue 42 (a number) is listed as saved ("42"), yet the
      toggle posts a save and the set, and the heart, stay as they were. */
  lemma NumericIdExample()
    ensures var venue, saved := Venue(Num(42), "Cafe"), {Str("42")};
      && IsSaved(saved, venue)
      && ToggleEffect(saved, "u1", venue) == PostSave("u1", Num(42))
      && Toggled(saved, "u1", venue, Success(())) == saved
  {
    assert NatToDecimal(4) == "4";
    assert NatToDecimal(42) == NatToDecimal(4) + ['2'];
    assert ToStr(Num(42)) == "42";
  }

  /** For a string identifier a successful toggle flips what the view shows. */
  lemma StringIdToggleFlipsView(saved: set<Id>, userId: string, venue: Venue)
    requires venue.id.Str? && userId != ""
    ensures IsSaved(Toggled(saved, userId, venue, Success(())), venue) == !IsSaved(saved, venue)
  {
  }

  /** For a string identifier two successful toggles restore the set. */
  lemma StringIdRoundTrip(saved: set<Id>, userId: string, venue: Venue)
    requires venue.id.Str? && userId != ""
    ensures Toggled(Toggled(saved, userId, venue, Success(())), userId, venue, Success(())) == saved
  {
  }

  /** After a successful save the view shows the venue as saved, whatever the
      type of its identifier; after a successful delete of a string identifier
      it does not. */
  lemma ViewAfterToggle(saved: set<Id>, userId: string, venue: Venue)
    requires userId != ""
    ensures ToggleEffect(saved, userId, venue).PostSave? ==>
      IsSaved(Toggled(saved, userId, venue, Success(())), venue)
    ensures ToggleEffect(saved, userId, venue).PostDelete? && venue.id.Str? ==>
      !IsSaved(Toggled(saved, userId, venue, Success(())), venue)
  {
  }

  /** The view cannot tell a numeric identifier from its decimal string. */
  lemma ViewIgnoresRepresentation(saved: set<Id>, a: Venue, b: Venue)
    ensures ToStr(a.id) == ToStr(b.id) ==> IsSaved(saved, a) == IsSaved(saved, b)
  {
  }

  /** A user whose listing holds venue "A": the view shows "A" saved and "B"
      not, and a successful toggle of "B" posts a save and shows it saved. */
  lemma ListingThenSaveExample()
    ensures var saved, a, b := SavedIds([SavedRecord(Str("A"))]), Venue(Str("A"), "a"), Venue(Str("B"), "b");
      && IsSaved(saved, a) && !IsSaved(saved, b)
      && ToggleEffect(saved, "u1", b) == PostSave("u1", Str("B"))
      && IsSaved(Toggled(saved, "u1", b, Success(())), b)
      && IsSaved(Toggled(saved, "u1", b, Success(())), a)
  {
  }

  /** The toggle with the identifier normalised on both paths: it tests and
      deletes `String(venue.id)`, as the view reads it. */
  function ToggledNormalized(saved: set<Id>, userId: string, venue: Venue, response: Outcome<()>): (r: set<Id>)
    ensures userId == "" || response.Failure? ==> r == saved
    ensures r - saved <= {Key(venue.id)} && saved - r <= {Key(venue.id)}
  {
    if userId == "" || response.Failure? then saved
    else if Key(venue.id) in saved then saved - {Key(venue.id)}
    else saved + {Key(venue.id)}
  }

  /** With normalisation every successful toggle flips the view and two of
      them restore the set, for numeric and string identifiers alike; on
      string identifiers it agrees with the toggle as written. */
  lemma NormalizedToggleRoundTrip(saved: set<Id>, userId: string, venue: Venue)
    requires userId != ""
    ensures IsSaved(ToggledNormalized(saved, userId, venue, Success(())), venue) == !IsSaved(saved, venue)
    ensures ToggledNormalized(ToggledNormalized(saved, userId, venue, Success(())), userId, venue, Success(())) == saved
    ensures venue.id.Str? ==> forall o: Outcome<()> :: ToggledNormalized(saved, userId, venue, o) == Toggled(saved, userId, venue, o)
  {
  }
}
