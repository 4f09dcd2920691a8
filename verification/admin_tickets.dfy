/**
 * The ticket admin page (app/admin/tickets/page.tsx): the ticket form, its
 * field rules and how a stored ticket is copied into it for editing.
 */
module AdminTickets {
  import opened Wrappers
  import opened Records
  import opened Forms
  import AdminCrud

  /** `TicketFormInput`. `airlines` has no default value, so it is missing
      until the airline input or an edit sets it. */
  datatype TicketForm = TicketForm(
    origin: string,
    destination: string,
    date: string,
    departureTime: string,
    price: NumberValue,
    stock: NumberValue,
    flightClass: string,
    airlines: Option<string>)

  /** The form's `defaultValues`. */
  const Defaults := TicketForm("", "", "", "", Num(0), Num(0), "economy", None)

  /** The class select's options. */
  const ClassOptions: seq<string> := ["economy", "business", "first"]

  function DateError(d: string): Option<string> {
    Required(d, "Date is required")
  }

  function DepartureTimeError(t: string): Option<string> {
    Required(t, "Departure time is required")
  }

  /** `min: 0` on price and stock: a negative number fails with the empty
      message; an empty input is not checked. */
  function PriceError(p: NumberValue): Option<string> {
    AtLeast(p, 0)
  }

  function StockError(s: NumberValue): Option<string> {
    AtLeast(s, 0)
  }

  function ClassError(c: string): Option<string> {
    Required(c, "Class is required")
  }

  /** No field reports an error. Origin, destination and airline carry no
      rule. */
  predicate Valid(f: TicketForm) {
    && DateError(f.date).None?
    && DepartureTimeError(f.departureTime).None?
    && PriceError(f.price).None?
    && StockError(f.stock).None?
    && ClassError(f.flightClass).None?
  }

  /** The form is accepted exactly when a date, a departure time and a
      class are filled in and neither price nor stock is a negative number. */
  lemma ValidIff(f: TicketForm)
    ensures Valid(f) <==>
              f.date != "" && f.departureTime != "" && f.flightClass != ""
              && (f.price.Num? ==> f.price.n >= 0)
              && (f.stock.Num? ==> f.stock.n >= 0)
  {
  }

  /** The default class is one of the options, and every option passes the
      class rule. */
  lemma ClassOptionsAccepted()
    ensures Defaults.flightClass in ClassOptions && Defaults.flightClass == "economy"
    ensures forall c :: c in ClassOptions ==> ClassError(c).None?
  {
  }

  /** The empty form is refused for its date and departure time only. */
  lemma DefaultsRefused()
    ensures !Valid(Defaults)
    ensures DateError(Defaults.date).Some? && DepartureTimeError(Defaults.departureTime).Some?
    ensures PriceError(Defaults.price).None? && StockError(Defaults.stock).None?
    ensures ClassError(Defaults.flightClass).None?
  {
  }

  /** `handleEdit`'s mapping: all eight fields are copied, price and stock
      as numbers. */
  function EditValues(t: Ticket): (f: TicketForm)
    ensures f.origin == t.origin && f.destination == t.destination
    ensures f.date == t.date && f.departureTime == t.departureTime
    ensures f.price == Num(t.price) && f.stock == Num(t.stock)
    ensures f.flightClass == t.flightClass && f.airlines == Some(t.airlines)
  {
    TicketForm(t.origin, t.destination, t.date, t.departureTime, Num(t.price), Num(t.stock),
               t.flightClass, Some(t.airlines))
  }

  /** The row stored by `createTicket`/`updateTicket` for a form with both
      numbers and an airline, when the store keeps the values as written. */
  function SavedRow(id: nat, f: TicketForm): Ticket
    requires f.price.Num? && f.stock.Num? && f.airlines.Some?
  {
    Ticket(id, f.origin, f.destination, f.date, f.departureTime, f.price.n, f.stock.n,
           f.flightClass, f.airlines.value)
  }

  /** Editing a saved ticket puts back the values it was saved with. */
  lemma EditSavedRow(id: nat, f: TicketForm)
    requires f.price.Num? && f.stock.Num? && f.airlines.Some?
    ensures EditValues(SavedRow(id, f)) == f
  {
  }

  /** Saving the edited values of a ticket stores the ticket unchanged. */
  lemma SaveEditedRow(t: Ticket)
    ensures SavedRow(t.id, EditValues(t)) == t
  {
  }

  /** The page as it starts: the default form, in create mode. */
  method NewPage() returns (page: AdminCrud.Editor<TicketForm, Ticket>)
    ensures fresh(page)
    ensures page.defaults == Defaults && forall f :: page.valid(f) == Valid(f)
    ensures page.form == Defaults && page.editingId == None && page.error == "" && page.rows == []
  {
    page := new AdminCrud.Editor(Defaults, (f: TicketForm) => Valid(f));
  }

  /** `handleEdit(ticket)` */
  method HandleEdit(page: AdminCrud.Editor<TicketForm, Ticket>, t: Ticket)
    modifies page`form, page`editingId
    ensures page.form == EditValues(t) && page.editingId == Some(t.id)
  {
    page.Edit(t.id, EditValues(t));
  }
}
