/** The state of the `TopRestaurants` component and its handlers. Each
    asynchronous handler runs here as one sequential transition: the network
    call it awaits is a parameter holding the outcome that call resolved with. */
module Component {
  import opened Ids
  import opened Remote
  import opened SavedSet

  /** The message a failed venue load shows. */
  const LoadFailedMessage := "Failed to load restaurants."

  class TopRestaurants {
    var restaurants: seq<Venue>
    var saved: set<Id>
    var error: string
    var loading: bool

    /** The saved set only ever holds string elements. */
    ghost predicate Valid()
      reads this
    {
      AllStrings(saved)
    }

    /** The initial state: no venues, nothing saved, no error, loading. */
    constructor ()
      ensures Valid()
      ensures restaurants == [] && saved == {} && error == "" && loading
    {
      restaurants := [];
      saved := {};
      error := "";
      loading := true;
    }

    /** Start of the venue-loading effect: nothing happens for an empty
        location; otherwise the spinner is shown and the error cleared before
        the request goes out. */
    method BeginFetch(location: string) returns (requested: bool)
      requires Valid()
      modifies this`loading, this`error
      ensures Valid()
      ensures requested <==> location != ""
      ensures requested ==> loading && error == ""
      ensures !requested ==> loading == old(loading) && error == old(error)
    {
      if location == "" {
        return false;
      }
      requested := true;
      loading := true;
      error := "";
    }

    /** Resolution of the venue request: a response replaces the venue list as
        it came, in order; a failure sets the fixed message and keeps the list;
        either way the spinner goes off. */
    method CompleteFetch(response: Outcome<seq<Venue>>)
      requires Valid()
      modifies this`restaurants, this`error, this`loading
      ensures Valid()
      ensures !loading
      ensures response.Success? ==> restaurants == response.payload && error == old(error)
      ensures response.Failure? ==> restaurants == old(restaurants) && error == LoadFailedMessage
    {
      match response {
        case Success(data) =>
          restaurants := data;
        case Failure =>
          error := LoadFailedMessage;
      }
      loading := false;
    }

    /** The whole venue-loading effect for one `location`. */
    method FetchRestaurants(location: string, response: Outcome<seq<Venue>>) returns (requested: bool)
      requires Valid()
      modifies this`restaurants, this`error, this`loading
      ensures Valid() && saved == old(saved)
      ensures requested <==> location != ""
      ensures !requested ==>
        restaurants == old(restaurants) && error == old(error) && loading == old(loading)
      ensures requested ==> !loading
      ensures requested && response.Success? ==> restaurants == response.payload && error == ""
      ensures requested && response.Failure? ==>
        restaurants == old(restaurants) && error == LoadFailedMessage
    {
      requested := BeginFetch(location);
      if requested {
        CompleteFetch(response);
      }
    }

    /** The saved-listing effect: nothing happens without a user; a listing
        replaces the set with the string forms of its identifiers; a failure
        is only logged. */
    method FetchSaved(userId: string, response: Outcome<seq<SavedRecord>>) returns (requested: bool)
      requires Valid()
      modifies this`saved
      ensures Valid()
      ensures requested <==> userId != ""
      ensures saved == if requested && response.Success? then SavedIds(response.payload) else old(saved)
    {
      if userId == "" {
        return false;
      }
      requested := true;
      match response {
        case Success(records) =>
          saved := SavedIds(records);
        case Failure =>
      }
    }

    /** `toggleSaveRestaurant(venue)`: returns what it did to the outside world
        and changes the saved set only once the awaited call has succeeded. */
    method ToggleSaveRestaurant(userId: string, venue: Venue, response: Outcome<()>) returns (effect: Effect)
      requires Valid()
      modifies this`saved
      ensures Valid()
      ensures effect == ToggleEffect(old(saved), userId, venue)
      ensures saved == Toggled(old(saved), userId, venue, response)
    {
      if userId == "" {
        return NavigateTo(SignInPath);
      }
      if venue.id in saved {
        effect := PostDelete(userId, venue.id);
        if response.Success? {
          saved := saved - {venue.id};
        }
      } else {
        effect := PostSave(userId, venue.id);
        if response.Success? {
          saved := saved + {Key(venue.id)};
        }
      }
    }
  }
}
