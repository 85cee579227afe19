/** The guest list component: the entries read from the guest-book API, the
    current page, and the loading and error flags, together with the three
    ways they change (the fetch settling, a new guest being prepended, a page
    button being clicked) and the view chosen from them on each render. */
module GuestList {
  import opened Pagination

  /** One guest-book entry as the list shows it. */
  datatype Guest = Guest(name: string, message: string)

  /** A nullable value (`string | null`). */
  datatype Option<T> = None | Some(value: T)

  /** What the single read of the guest-book API came back with: a JSON
      array, some other JSON value, or a thrown error. */
  datatype FetchOutcome = Fetched(payload: seq<Guest>) | NonArray | Failed

  /** What a render shows: the spinner, the error text, or the loaded list
      (the entries of the current page and the labels of the page buttons). */
  datatype View = Spinner | ErrorText(text: string) | Loaded(entries: seq<Guest>, buttons: seq<int>)

  const InvalidFormatMessage: string := "Invalid data format received from the API."
  const FetchFailedMessage: string := "Failed to fetch guests."

  /** JavaScript truthiness of a `string | null`: null and "" are false. */
  predicate Truthy(e: Option<string>)
  {
    e.Some? && e.value != ""
  }

  class Component {
    var guests: seq<Guest>
    var loading: bool
    var error: Option<string>
    var currentPage: int

    /** The page is a page number; until the fetch has settled the list is
        empty, the page is 1 and no error is recorded; and a page other than
        the first is one that the buttons offer. */
    ghost predicate Valid()
      reads this
    {
      && currentPage >= 1
      && (loading ==> guests == [] && currentPage == 1 && error == None)
      && (currentPage == 1 || currentPage <= TotalPages(|guests|))
    }

    /** The state on mount: no entries, loading, no error, page 1. */
    constructor ()
      ensures Valid()
      ensures guests == [] && loading && error == None && currentPage == 1
    {
      guests := [];
      loading := true;
      error := None;
      currentPage := 1;
    }

    /** The render: the spinner while loading, else the error when one is
        recorded, else the current page of entries and one button per page. */
    function Render(): (v: View)
      reads this
      ensures v.Spinner? <==> loading
      ensures v.ErrorText? <==> !loading && Truthy(error)
      ensures v.ErrorText? ==> error == Some(v.text)
      ensures v.Loaded? <==> !loading && !Truthy(error)
      ensures v.Loaded? ==> v.entries == CurrentGuests(guests, currentPage) && |v.entries| <= PageSize
      ensures v.Loaded? ==> v.buttons == PageButtons(TotalPages(|guests|))
      ensures v.Loaded? ==> |v.buttons| == TotalPages(|guests|)
      ensures v.Loaded? && Valid() && guests != [] ==> v.entries != []
    {
      if loading then Spinner
      else if Truthy(error) then ErrorText(error.value)
      else
        var total := TotalPages(|guests|);
        assert guests != [] && 1 <= currentPage && (currentPage == 1 || currentPage <= total)
          ==> CurrentGuests(guests, currentPage) != [] by {
          if guests != [] && 1 <= currentPage && (currentPage == 1 || currentPage <= total) {
            PageNonEmpty(guests, currentPage);
          }
        }
        Loaded(CurrentGuests(guests, currentPage), PageButtons(total))
    }

    /** `fetchGuests` settling: an array becomes the entries, anything else
        records an error message; in every case loading ends. */
    method SettleFetch(outcome: FetchOutcome)
      requires Valid() && loading
      modifies this
      ensures Valid()
      ensures !loading && currentPage == old(currentPage)
      ensures outcome.Fetched? ==> guests == outcome.payload && error == None
      ensures outcome.NonArray? ==> guests == old(guests) && error == Some(InvalidFormatMessage)
      ensures outcome.Failed? ==> guests == old(guests) && error == Some(FetchFailedMessage)
      ensures !outcome.Fetched? ==> guests == []
      ensures outcome.Fetched? <==> Render().Loaded?
      ensures outcome.Fetched? ==> Render() == Loaded(CurrentGuests(outcome.payload, 1), PageButtons(TotalPages(|outcome.payload|)))
    {
      match outcome {
        case Fetched(payload) =>
          guests := payload;
        case NonArray =>
          error := Some(InvalidFormatMessage);
        case Failed =>
          error := Some(FetchFailedMessage);
      }
      loading := false;
    }

    /** `addGuest`: the new entry goes in front of the others. It is reached
        only through the form, which is mounted in the loaded view alone. */
    method AddGuest(g: Guest)
      requires Valid() && Render().Loaded?
      modifies this
      ensures Valid()
      ensures guests == [g] + old(guests)
      ensures |guests| == |old(guests)| + 1 && guests[0] == g && guests[1..] == old(guests)
      ensures currentPage == old(currentPage) && loading == old(loading) && error == old(error)
      ensures TotalPages(|old(guests)|) <= TotalPages(|guests|)
      ensures Render().Loaded? && |old(Render()).buttons| <= |Render().buttons|
      ensures Render().Loaded? && currentPage == 1 ==> Render().entries[0] == g
    {
      TotalPagesMonotone(|guests|, |guests| + 1);
      guests := [g] + guests;
    }

    /** `handlePageChange`, reached only through a page button of the loaded
        view. */
    method HandlePageChange(n: int)
      requires Valid() && Render().Loaded?
      requires n in Render().buttons
      modifies this
      ensures Valid()
      ensures currentPage == n
      ensures guests == old(guests) && loading == old(loading) && error == old(error)
      ensures Render().Loaded? && Render().entries != []
    {
      currentPage := n;
    }
  }
}
