/**
 * The ticket search on the customer's ticket list (app/tickets/page.tsx):
 * the loaded tickets pass through a chain of list filters, one per search
 * criterion that is not empty.
 */
module TicketSearch {
  import opened Text
  import opened Records

  /** The search criteria the list is filtered by (the page's `filter` state). */
  datatype Criteria = Criteria(
    origin: string,
    destination: string,
    departureDate: string,
    returnDate: string,
    flightClass: string,
    airline: string)

  /** The page's `filter` state before the first search: only the class is set. */
  const InitialCriteria: Criteria := Criteria("", "", "", "", "economy", "")

  /** `ts.filter(keep)` */
  function Filter(ts: seq<Ticket>, keep: Ticket -> bool): (r: seq<Ticket>)
    ensures |r| <= |ts|
  {
    if ts == [] then [] else (if keep(ts[0]) then [ts[0]] else []) + Filter(ts[1..], keep)
  }

  /** `if (on) data = data.filter(keep)` */
  function When(ts: seq<Ticket>, on: bool, keep: Ticket -> bool): seq<Ticket> {
    if on then Filter(ts, keep) else ts
  }

  /** The test of each filter stage. */
  function OriginTest(c: Criteria): Ticket -> bool {
    (t: Ticket) => ContainsIgnoringCase(t.origin, c.origin)
  }
  function DestinationTest(c: Criteria): Ticket -> bool {
    (t: Ticket) => ContainsIgnoringCase(t.destination, c.destination)
  }
  function DepartureTest(c: Criteria): Ticket -> bool {
    (t: Ticket) => t.date == c.departureDate
  }
  function ReturnTest(c: Criteria): Ticket -> bool {
    (t: Ticket) => t.date == c.returnDate
  }
  function ClassTest(c: Criteria): Ticket -> bool {
    (t: Ticket) => t.flightClass == c.flightClass
  }
  function AirlineTest(c: Criteria): Ticket -> bool {
    (t: Ticket) => ContainsIgnoringCase(t.airlines, c.airline)
  }

  /** The filter effect of the ticket list, stage by stage as the page runs it. */
  function Search(ts: seq<Ticket>, c: Criteria): seq<Ticket> {
    var byOrigin := When(ts, c.origin != "", OriginTest(c));
    var byDestination := When(byOrigin, c.destination != "", DestinationTest(c));
    var byDeparture := When(byDestination, c.departureDate != "", DepartureTest(c));
    var byReturn := When(byDeparture, c.returnDate != "", ReturnTest(c));
    var byClass := When(byReturn, c.flightClass != "", ClassTest(c));
    When(byClass, c.airline != "", AirlineTest(c))
  }

  /** A ticket meets every criterion that is not empty. Both dates are tested
      against the ticket's one `date`; the class test is exact. */
  predicate Matches(c: Criteria, t: Ticket) {
    && (c.origin == "" || ContainsIgnoringCase(t.origin, c.origin))
    && (c.destination == "" || ContainsIgnoringCase(t.destination, c.destination))
    && (c.departureDate == "" || t.date == c.departureDate)
    && (c.returnDate == "" || t.date == c.returnDate)
    && (c.flightClass == "" || t.flightClass == c.flightClass)
    && (c.airline == "" || ContainsIgnoringCase(t.airlines, c.airline))
  }

  /** The reference definition: one pass that keeps the matching tickets. */
  function Select(ts: seq<Ticket>, c: Criteria): seq<Ticket> {
    if ts == [] then [] else (if Matches(c, ts[0]) then [ts[0]] else []) + Select(ts[1..], c)
  }

  /** `a` is `b` with some elements removed and the rest in their order. */
  predicate IsSubsequence(a: seq<Ticket>, b: seq<Ticket>)
    decreases |b|
  {
    a == [] || (b != [] && ((a[0] == b[0] && IsSubsequence(a[1..], b[1..])) || IsSubsequence(a, b[1..])))
  }

  lemma {:induction false} FilterAppend(a: seq<Ticket>, b: seq<Ticket>, keep: Ticket -> bool)
    ensures Filter(a + b, keep) == Filter(a, keep) + Filter(b, keep)
  {
    if a == [] {
      assert a + b == b;
    } else {
      var ab := a + b;
      var head := if keep(a[0]) then [a[0]] else [];
      assert ab != [] && ab[0] == a[0] && ab[1..] == a[1..] + b;
      assert Filter(ab, keep) == head + Filter(a[1..] + b, keep);
      assert Filter(a, keep) == head + Filter(a[1..], keep);
      FilterAppend(a[1..], b, keep);
    }
  }

  lemma WhenAppend(a: seq<Ticket>, b: seq<Ticket>, on: bool, keep: Ticket -> bool)
    ensures When(a + b, on, keep) == When(a, on, keep) + When(b, on, keep)
  {
    if on {
      FilterAppend(a, b, keep);
    }
  }

  /** The filter chain works element by element. */
  lemma SearchAppend(a: seq<Ticket>, b: seq<Ticket>, c: Criteria)
    ensures Search(a + b, c) == Search(a, c) + Search(b, c)
  {
    var k1, k2, k3 := OriginTest(c), DestinationTest(c), DepartureTest(c);
    var k4, k5, k6 := ReturnTest(c), ClassTest(c), AirlineTest(c);
    var a1, b1 := When(a, c.origin != "", k1), When(b, c.origin != "", k1);
    WhenAppend(a, b, c.origin != "", k1);
    var a2, b2 := When(a1, c.destination != "", k2), When(b1, c.destination != "", k2);
    WhenAppend(a1, b1, c.destination != "", k2);
    var a3, b3 := When(a2, c.departureDate != "", k3), When(b2, c.departureDate != "", k3);
    WhenAppend(a2, b2, c.departureDate != "", k3);
    var a4, b4 := When(a3, c.returnDate != "", k4), When(b3, c.returnDate != "", k4);
    WhenAppend(a3, b3, c.returnDate != "", k4);
    var a5, b5 := When(a4, c.flightClass != "", k5), When(b4, c.flightClass != "", k5);
    WhenAppend(a4, b4, c.flightClass != "", k5);
    WhenAppend(a5, b5, c.airline != "", k6);
  }

  /** On one ticket the chain keeps it exactly when it matches. */
  lemma SearchOne(t: Ticket, c: Criteria)
    ensures Search([t], c) == if Matches(c, t) then [t] else []
  {
  }

  /** The chain of filters is the single pass: same tickets, same order. */
  lemma {:induction false} SearchIsSelect(ts: seq<Ticket>, c: Criteria)
    ensures Search(ts, c) == Select(ts, c)
  {
    if ts != [] {
      assert ts == [ts[0]] + ts[1..];
      SearchAppend([ts[0]], ts[1..], c);
      SearchOne(ts[0], c);
      SearchIsSelect(ts[1..], c);
    }
  }

  /** Selection keeps a ticket exactly when it is in the list and matches. */
  lemma {:induction false} SelectMembers(ts: seq<Ticket>, c: Criteria)
    ensures forall t :: t in Select(ts, c) <==> t in ts && Matches(c, t)
  {
    if ts != [] {
      SelectMembers(ts[1..], c);
      assert ts == [ts[0]] + ts[1..];
    }
  }

  /** Selection only removes tickets and keeps the rest in order. */
  lemma {:induction false} SelectIsSubsequence(ts: seq<Ticket>, c: Criteria)
    ensures IsSubsequence(Select(ts, c), ts)
  {
    if ts != [] {
      SelectIsSubsequence(ts[1..], c);
      var r := Select(ts, c);
      if Matches(c, ts[0]) {
        assert r[0] == ts[0] && r[1..] == Select(ts[1..], c);
        assert IsSubsequence(r[1..], ts[1..]);
      } else {
        assert r == Select(ts[1..], c);
        assert IsSubsequence(r, ts[1..]);
      }
    }
  }

  /** Selecting from a selection changes nothing. */
  lemma {:induction false} SelectIdempotent(ts: seq<Ticket>, c: Criteria)
    ensures Select(Select(ts, c), c) == Select(ts, c)
  {
    if ts != [] {
      SelectIdempotent(ts[1..], c);
      var r := Select(ts, c);
      if Matches(c, ts[0]) {
        assert r == [ts[0]] + Select(ts[1..], c);
        assert r[0] == ts[0] && r[1..] == Select(ts[1..], c);
        assert Select(r, c) == [ts[0]] + Select(r[1..], c);
      } else {
        assert r == Select(ts[1..], c);
      }
    }
  }

  /** The properties of the ticket list filter in one place: the result
      is an order-preserving subsequence of the loaded tickets, it holds
      exactly the tickets meeting every non-empty criterion, and filtering it
      again changes nothing. */
  lemma SearchSpec(ts: seq<Ticket>, c: Criteria)
    ensures IsSubsequence(Search(ts, c), ts)
    ensures forall t :: t in Search(ts, c) <==> t in ts && Matches(c, t)
    ensures Search(Search(ts, c), c) == Search(ts, c)
  {
    SearchIsSelect(ts, c);
    SelectIsSubsequence(ts, c);
    SelectMembers(ts, c);
    SearchIsSelect(Select(ts, c), c);
    SelectIdempotent(ts, c);
  }

  /** Both dates are compared with the ticket's one date, so two different
      dates leave nothing. */
  lemma DifferentDatesFindNothing(ts: seq<Ticket>, c: Criteria)
    requires c.departureDate != "" && c.returnDate != "" && c.departureDate != c.returnDate
    ensures Search(ts, c) == []
  {
    SearchSpec(ts, c);
  }

  /** With every criterion empty, the list is shown unfiltered. */
  lemma EmptyCriteriaKeepAll(ts: seq<Ticket>)
    ensures Search(ts, Criteria("", "", "", "", "", "")) == ts
  {
  }

  /** Before the first search only economy tickets are listed. */
  lemma InitialListIsEconomy(ts: seq<Ticket>)
    ensures forall t :: t in Search(ts, InitialCriteria) ==> t in ts && t.flightClass == "economy"
  {
    SearchSpec(ts, InitialCriteria);
  }
}
