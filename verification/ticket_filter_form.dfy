/**
 * The search form above the customer's ticket list
 * (app/tickets/components/TicketFilter.tsx): its fields are component state
 * changed by the buttons and inputs, and submitting it hands one search
 * request to the page.
 */
module TicketFilterForm {
  import TicketSearch

  /** The record passed to `onFilter`. */
  datatype Request = Request(
    origin: string,
    destination: string,
    departureDate: string,
    returnDate: string,
    roundTrip: bool,
    passengers: int,
    flightClass: string,
    airline: string)
  {
    /** The fields the ticket list filters by; `roundTrip` and `passengers`
        travel with the request but no filter reads them. */
    function Criteria(): (c: TicketSearch.Criteria)
      ensures c.returnDate == returnDate && c.flightClass == flightClass
    {
      TicketSearch.Criteria(origin, destination, departureDate, returnDate, flightClass, airline)
    }
  }

  /** The passenger choices, `[...Array(8)].map((_, i) => i + 1)`. */
  function PassengerOptions(): seq<int> {
    seq(8, i => i + 1)
  }

  /** The passenger choices are exactly 1 to 8, in increasing order. */
  lemma PassengerOptionsAreOneToEight()
    ensures forall n :: n in PassengerOptions() <==> 1 <= n <= 8
    ensures forall i, j :: 0 <= i < j < |PassengerOptions()| ==> PassengerOptions()[i] < PassengerOptions()[j]
  {
    var r := PassengerOptions();
    forall n | 1 <= n <= 8
      ensures n in r
    {
      assert r[n - 1] == n;
    }
  }

  class SearchForm {
    var roundTrip: bool
    var origin: string
    var destination: string
    var departureDate: string
    var returnDate: string
    var passengers: int
    var flightClass: string
    var airline: string

    /** The initial state: round trip, one passenger, economy, all text empty. */
    constructor ()
      ensures roundTrip && passengers == 1 && flightClass == "economy"
      ensures origin == "" && destination == "" && departureDate == "" && returnDate == "" && airline == ""
    {
      roundTrip := true;
      origin := "";
      destination := "";
      departureDate := "";
      returnDate := "";
      passengers := 1;
      flightClass := "economy";
      airline := "";
    }

    /** The return-date input is rendered only for a round trip. */
    predicate ReturnDateShown()
      reads this
    {
      roundTrip
    }

    /** The "One-way" button. */
    method OneWay()
      modifies this`roundTrip
      ensures !ReturnDateShown()
    {
      roundTrip := false;
    }

    /** The "Round-trip" button. */
    method RoundTrip()
      modifies this`roundTrip
      ensures ReturnDateShown()
    {
      roundTrip := true;
    }

    method SetOrigin(value: string)
      modifies this`origin
      ensures origin == value
    {
      origin := value;
    }

    method SetDestination(value: string)
      modifies this`destination
      ensures destination == value
    {
      destination := value;
    }

    method SetDepartureDate(value: string)
      modifies this`departureDate
      ensures departureDate == value
    {
      departureDate := value;
    }

    /** Typing a return date; the input exists only while it is shown. */
    method SetReturnDate(value: string)
      requires ReturnDateShown()
      modifies this`returnDate
      ensures returnDate == value
    {
      returnDate := value;
    }

    /** The passenger select offers only its options. */
    method SetPassengers(n: int)
      requires n in PassengerOptions()
      modifies this`passengers
      ensures passengers == n
    {
      passengers := n;
    }

    method SetClass(value: string)
      modifies this`flightClass
      ensures flightClass == value
    {
      flightClass := value;
    }

    method SetAirline(value: string)
      modifies this`airline
      ensures airline == value
    {
      airline := value;
    }

    /** `handleSubmit`: the request handed to the page. The return date is
        sent only on a round trip; a one-way search sends an empty one,
        whatever was typed before. Every other field is passed as it is. */
    function Submitted(): (r: Request)
      reads this
      ensures r.roundTrip == roundTrip
      ensures r.returnDate == (if roundTrip then returnDate else "")
      ensures !r.roundTrip ==> r.Criteria().returnDate == ""
      ensures r.origin == origin && r.destination == destination && r.departureDate == departureDate
      ensures r.passengers == passengers && r.flightClass == flightClass && r.airline == airline
    {
      Request(origin, destination, departureDate,
              if roundTrip then returnDate else "",
              roundTrip, passengers, flightClass, airline)
    }
  }
}
