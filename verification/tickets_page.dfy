/**
 * The customer's ticket list (app/tickets/page.tsx): loading the tickets,
 * the per-ticket quantity record, the filtered view, and turning the
 * quantities into the order items handed to the (unmodelled) order action.
 */
module TicketsPage {
  import opened Wrappers
  import opened Text
  import opened Records
  import opened Remote
  import opened Forms
  import TicketSearch
  import TicketFilterForm

  /** A quantity input, registered with `valueAsNumber`. */
  type Quantity = NumberValue

  /** `qty && Number(qty) > 0`: NaN and 0 are falsy, negatives fail the test. */
  predicate Positive(q: Quantity) {
    q.Num? && q.n > 0
  }

  /** One `[key, value]` pair of `Object.entries(items)`. */
  type Entry = (nat, Quantity)

  /** `{ ticket_id, quantity }` */
  datatype OrderItem = OrderItem(ticketId: nat, quantity: int)

  /** The arguments of `createOrder(userId, items, voucher)`. */
  datatype OrderCall = CreateOrder(userId: string, items: seq<OrderItem>, voucher: string)

  /** What `createOrder` gives back: `{ error }` or `{ order_id }`. */
  datatype OrderResult = OrderFailed(message: string) | OrderPlaced(orderId: nat)

  const UserMissing := "User tidak ditemukan."
  const NothingChosen := "Pilih tiket minimal 1."

  /** The success banner, `Order berhasil! ID: ${order_id}`. */
  function PlacedMessage(orderId: nat): string {
    "Order berhasil! ID: " + NatToString(orderId)
  }

  /** The ids of some tickets. */
  function IdsOf(ts: seq<Ticket>): set<nat> {
    set t | t in ts :: t.id
  }

  // ---- Object.entries: integer keys are enumerated in increasing order ----

  /** `m` is the smallest element of `s`. */
  predicate IsLeast(m: nat, s: set<nat>) {
    m in s && forall x :: x in s ==> m <= x
  }

  lemma {:induction false} HasLeast(s: set<nat>)
    requires s != {}
    ensures exists m :: IsLeast(m, s)
    decreases s
  {
    var y :| y in s;
    var rest := s - {y};
    if rest == {} {
      assert s == {y};
      assert IsLeast(y, s);
    } else {
      HasLeast(rest);
      var m :| IsLeast(m, rest);
      var least := if y < m then y else m;
      forall x | x in s
        ensures least <= x
      {
        if x != y {
          assert x in rest;
        }
      }
      assert IsLeast(least, s);
    }
  }

  ghost function Least(s: set<nat>): (m: nat)
    requires s != {}
    ensures m in s && forall x :: x in s ==> m <= x
  {
    HasLeast(s);
    var m :| IsLeast(m, s); m
  }

  /** `Object.entries(items)` for a record whose keys are ticket ids: the
      entries with integer keys come out in increasing key order. */
  ghost function Entries(items: map<nat, Quantity>): seq<Entry>
    decreases |items|
  {
    if items == map[] then []
    else
      var k := Least(items.Keys);
      assert |items - {k}| == |items| - 1;
      [(k, items[k])] + Entries(items - {k})
  }

  predicate StrictlyIncreasing(es: seq<Entry>) {
    forall i, j :: 0 <= i < j < |es| ==> es[i].0 < es[j].0
  }

  /** The enumeration holds each key of the record with its value, and
      nothing else. */
  lemma {:induction false} EntriesMembers(items: map<nat, Quantity>)
    ensures forall e :: e in Entries(items) <==> e.0 in items && items[e.0] == e.1
    decreases |items|
  {
    if items != map[] {
      var k := Least(items.Keys);
      var rest := items - {k};
      assert |rest| == |items| - 1;
      EntriesMembers(rest);
      assert Entries(items) == [(k, items[k])] + Entries(rest);
    }
  }

  /** A key below every key of an increasing list can go in front of it. */
  lemma {:induction false} ConsIncreasing(x: Entry, t: seq<Entry>)
    requires StrictlyIncreasing(t)
    requires forall e :: e in t ==> x.0 < e.0
    ensures StrictlyIncreasing([x] + t)
  {
    var r := [x] + t;
    forall i, j | 0 <= i < j < |r|
      ensures r[i].0 < r[j].0
    {
      assert r[j] == t[j - 1];
      if i > 0 {
        assert r[i] == t[i - 1];
      }
    }
  }

  /** The enumeration lists the keys in increasing order. */
  lemma {:induction false} EntriesIncreasing(items: map<nat, Quantity>)
    ensures StrictlyIncreasing(Entries(items))
    decreases |items|
  {
    if items != map[] {
      var k := Least(items.Keys);
      var rest := items - {k};
      assert |rest| == |items| - 1;
      EntriesIncreasing(rest);
      EntriesMembers(rest);
      ConsIncreasing((k, items[k]), Entries(rest));
      assert Entries(items) == [(k, items[k])] + Entries(rest);
    }
  }

  /** `Object.entries(items)`, enumerating the keys the way the JavaScript
      engine does: the smallest remaining integer key first. */
  method EnumerateEntries(items: map<nat, Quantity>) returns (es: seq<Entry>)
    ensures es == Entries(items)
  {
    es := [];
    var rest := items;
    while rest != map[]
      invariant es + Entries(rest) == Entries(items)
      decreases |rest|
    {
      var k :| k in rest && forall x :: x in rest ==> k <= x;
      assert k == Least(rest.Keys);
      assert |rest - {k}| == |rest| - 1;
      assert Entries(rest) == [(k, rest[k])] + Entries(rest - {k});
      es := es + [(k, rest[k])];
      rest := rest - {k};
    }
  }

  // ---- The cart: `.filter(([, qty]) => qty && Number(qty) > 0).map(...)` ----

  /** The filter stage: entries with a positive quantity, in entry order. */
  function PositiveEntries(es: seq<Entry>): seq<Entry> {
    if es == [] then []
    else (if Positive(es[0].1) then [es[0]] else []) + PositiveEntries(es[1..])
  }

  /** The map stage: each kept entry becomes `{ ticket_id, quantity }`. */
  function ToOrderItems(es: seq<Entry>): seq<OrderItem>
    requires forall e :: e in es ==> e.1.Num?
  {
    if es == [] then [] else [OrderItem(es[0].0, es[0].1.n)] + ToOrderItems(es[1..])
  }

  lemma {:induction false} PositiveEntriesMembers(es: seq<Entry>)
    ensures forall e :: e in PositiveEntries(es) <==> e in es && Positive(e.1)
  {
    if es != [] {
      PositiveEntriesMembers(es[1..]);
      assert es == [es[0]] + es[1..];
    }
  }

  /** In an increasing list the first key is below all the others. */
  lemma {:induction false} HeadBelowTail(es: seq<Entry>)
    requires es != [] && StrictlyIncreasing(es)
    ensures forall e :: e in es[1..] ==> es[0].0 < e.0
  {
    forall e | e in es[1..]
      ensures es[0].0 < e.0
    {
      var k :| 0 <= k < |es| - 1 && es[1..][k] == e;
      assert es[k + 1] == e;
    }
  }

  lemma {:induction false} PositiveEntriesIncreasing(es: seq<Entry>)
    requires StrictlyIncreasing(es)
    ensures StrictlyIncreasing(PositiveEntries(es))
  {
    if es != [] {
      var tail := es[1..];
      assert StrictlyIncreasing(tail);
      PositiveEntriesIncreasing(tail);
      if Positive(es[0].1) {
        PositiveEntriesMembers(tail);
        HeadBelowTail(es);
        ConsIncreasing(es[0], PositiveEntries(tail));
        assert PositiveEntries(es) == [es[0]] + PositiveEntries(tail);
      } else {
        assert PositiveEntries(es) == PositiveEntries(tail);
      }
    }
  }

  /** The items of an order, built from the entries as the page builds them. */
  function Cart(es: seq<Entry>): seq<OrderItem> {
    PositiveEntriesMembers(es);
    ToOrderItems(PositiveEntries(es))
  }

  lemma {:induction false} ToOrderItemsAt(es: seq<Entry>)
    requires forall e :: e in es ==> e.1.Num?
    ensures |ToOrderItems(es)| == |es|
    ensures forall i :: 0 <= i < |es| ==> ToOrderItems(es)[i] == OrderItem(es[i].0, es[i].1.n)
  {
    if es != [] {
      ToOrderItemsAt(es[1..]);
    }
  }

  lemma ToOrderItemsMembers(es: seq<Entry>)
    requires forall e :: e in es ==> e.1.Num?
    ensures forall it :: it in ToOrderItems(es) <==> (it.ticketId, Num(it.quantity)) in es
  {
    ToOrderItemsAt(es);
    var r := ToOrderItems(es);
    forall it: OrderItem | (it.ticketId, Num(it.quantity)) in es
      ensures it in r
    {
      var i :| 0 <= i < |es| && es[i] == (it.ticketId, Num(it.quantity));
      assert r[i] == it;
    }
  }

  /** The ids of the tickets in some order items. */
  function TicketIds(cart: seq<OrderItem>): set<nat> {
    set it | it in cart :: it.ticketId
  }

  /** The order items hold exactly the positive quantities of the record. */
  lemma CartMembers(items: map<nat, Quantity>)
    ensures forall it :: it in Cart(Entries(items)) <==>
              it.ticketId in items && items[it.ticketId] == Num(it.quantity) && it.quantity > 0
  {
    var es := Entries(items);
    EntriesMembers(items);
    PositiveEntriesMembers(es);
    ToOrderItemsMembers(PositiveEntries(es));
  }

  /** The order items come in increasing ticket id. */
  lemma CartIncreasing(items: map<nat, Quantity>)
    ensures forall i, j :: 0 <= i < j < |Cart(Entries(items))| ==>
              Cart(Entries(items))[i].ticketId < Cart(Entries(items))[j].ticketId
  {
    var es := Entries(items);
    EntriesIncreasing(items);
    PositiveEntriesMembers(es);
    PositiveEntriesIncreasing(es);
    ToOrderItemsAt(PositiveEntries(es));
  }

  /** The order items made from a quantity record: one per ticket whose
      quantity is positive and no other, in increasing ticket id, each
      carrying that ticket's quantity. */
  lemma CartSpec(items: map<nat, Quantity>)
    ensures forall it :: it in Cart(Entries(items)) ==>
              it.quantity > 0 && it.ticketId in items && items[it.ticketId] == Num(it.quantity)
    ensures forall k :: k in TicketIds(Cart(Entries(items))) <==> k in items && Positive(items[k])
    ensures forall i, j :: 0 <= i < j < |Cart(Entries(items))| ==>
              Cart(Entries(items))[i].ticketId < Cart(Entries(items))[j].ticketId
  {
    CartMembers(items);
    CartIncreasing(items);
    var cart := Cart(Entries(items));
    forall k | k in items && Positive(items[k])
      ensures k in TicketIds(cart)
    {
      assert OrderItem(k, items[k].n) in cart;
    }
  }

  /** A record in which every quantity is 0 yields no order items. */
  lemma NothingChosenAfterLoad(items: map<nat, Quantity>)
    requires forall k :: k in items ==> items[k] == Num(0)
    ensures Cart(Entries(items)) == []
  {
    CartMembers(items);
  }

  /** `itemsDefault[t.id] = 0` for every loaded ticket. */
  method DefaultQuantities(ts: seq<Ticket>) returns (items: map<nat, Quantity>)
    ensures items.Keys == IdsOf(ts)
    ensures forall k :: k in items ==> items[k] == Num(0)
  {
    items := map[];
    var i := 0;
    while i < |ts|
      invariant 0 <= i <= |ts|
      invariant items.Keys == IdsOf(ts[..i])
      invariant forall k :: k in items ==> items[k] == Num(0)
    {
      assert ts[..i + 1] == ts[..i] + [ts[i]];
      items := items[ts[i].id := Num(0)];
      i := i + 1;
    }
    assert ts[..i] == ts;
  }

  /** The rules of a listed ticket's quantity input, `min: 0, max: t.stock`:
      a number outside that range fails with the empty message; an empty
      input is not checked. */
  function QuantityError(q: Quantity, stock: int): (e: Option<string>)
    ensures e.None? <==> q.NotANumber? || 0 <= q.n <= stock
    ensures e.Some? ==> e.value == ""
  {
    if q.Num? && (q.n < 0 || q.n > stock) then Some("") else None
  }

  /** Every quantity input on screen passes its rules, so `handleSubmit`
      calls `onSubmit`. Only the listed tickets have an input. */
  predicate QuantitiesAccepted(listed: seq<Ticket>, items: map<nat, Quantity>) {
    forall t :: t in listed && t.id in items ==> QuantityError(items[t.id], t.stock).None?
  }

  /** Once the quantities are accepted, no listed ticket is ordered beyond
      its stock. A ticket that the search has hidden is not checked: its
      quantity still reaches the order. */
  lemma AcceptedCartWithinStock(listed: seq<Ticket>, items: map<nat, Quantity>)
    requires QuantitiesAccepted(listed, items)
    ensures forall it, t :: it in Cart(Entries(items)) && t in listed && t.id == it.ticketId ==>
              0 < it.quantity <= t.stock
  {
    CartMembers(items);
  }

  /** The page's state. */
  class TicketList {
    var tickets: seq<Ticket>
    var criteria: TicketSearch.Criteria
    var filtered: seq<Ticket>
    var userId: string
    /** The form values: a quantity per ticket id and the voucher code. */
    var items: map<nat, Quantity>
    var voucher: string
    /** The quantities the form returns to on `reset()`. */
    var defaultItems: map<nat, Quantity>
    var error: string
    var success: string

    /** The filter effect keeps the shown list in step with the tickets and
        the criteria. */
    ghost predicate Valid()
      reads this
    {
      filtered == TicketSearch.Search(tickets, criteria)
    }

    constructor ()
      ensures Valid()
      ensures tickets == [] && filtered == [] && criteria == TicketSearch.InitialCriteria
      ensures userId == "" && items == map[] && voucher == "" && defaultItems == map[]
      ensures error == "" && success == ""
    {
      tickets := [];
      criteria := TicketSearch.InitialCriteria;
      filtered := [];
      userId := "";
      items := map[];
      voucher := "";
      defaultItems := map[];
      error := "";
      success := "";
    }

    /** `getData`: on success every loaded ticket gets quantity 0, the
        voucher field is emptied, and these become the form's defaults. */
    method Load(fetched: Fetch<Ticket>)
      requires Valid()
      modifies this
      ensures Valid()
      ensures criteria == old(criteria) && userId == old(userId) && success == old(success)
      ensures fetched.FetchFailed? ==>
                error == fetched.message && tickets == old(tickets) && items == old(items)
                && voucher == old(voucher) && defaultItems == old(defaultItems)
      ensures fetched.Rows? ==>
                error == old(error) && tickets == fetched.data && voucher == ""
                && items == defaultItems && items.Keys == IdsOf(fetched.data)
                && (forall k :: k in items ==> items[k] == Num(0))
    {
      match fetched
      case FetchFailed(m) =>
        error := m;
      case Rows(data) =>
        tickets := data;
        var zeros := DefaultQuantities(data);
        items, defaultItems := zeros, zeros;
        voucher := "";
        filtered := TicketSearch.Search(tickets, criteria);
    }

    /** The signed-in user, once `getUser` resolves. */
    method SetUser(user: Option<string>)
      modifies this`userId
      ensures userId == if user.Some? then user.value else old(userId)
    {
      if user.Some? {
        userId := user.value;
      }
    }

    /** `onFilter`: a new search from the search form. */
    method ApplySearch(request: TicketFilterForm.Request)
      requires Valid()
      modifies this`criteria, this`filtered
      ensures Valid()
      ensures criteria == request.Criteria()
    {
      criteria := request.Criteria();
      filtered := TicketSearch.Search(tickets, criteria);
    }

    /** Typing a quantity; there is an input only for a listed ticket. */
    method SetQuantity(id: nat, q: Quantity)
      requires id in IdsOf(filtered)
      modifies this`items
      ensures items == old(items)[id := q]
    {
      items := items[id := q];
    }

    method SetVoucher(code: string)
      modifies this`voucher
      ensures voucher == code
    {
      voucher := code;
    }

    /** `handleSubmit(onSubmit)`: nothing happens while a listed quantity
        fails its rules. Otherwise clear both banners, build the order
        items, report a missing user before an empty cart, and only then
        call `createOrder`. On success the form returns to its defaults. */
    method Submit(result: OrderResult) returns (call: Option<OrderCall>)
      requires Valid()
      modifies this`error, this`success, this`items, this`voucher
      ensures Valid()
      ensures !QuantitiesAccepted(filtered, old(items)) ==>
                call == None && error == old(error) && success == old(success)
      ensures call.Some? <==>
                QuantitiesAccepted(filtered, old(items)) && old(userId) != "" && Cart(Entries(old(items))) != []
      ensures call.Some? ==> call.value == CreateOrder(old(userId), Cart(Entries(old(items))), old(voucher))
      ensures QuantitiesAccepted(filtered, old(items)) && old(userId) == "" ==>
                error == UserMissing && success == ""
      ensures QuantitiesAccepted(filtered, old(items)) && old(userId) != "" && Cart(Entries(old(items))) == [] ==>
                error == NothingChosen && success == ""
      ensures call.None? || result.OrderFailed? ==> items == old(items) && voucher == old(voucher)
      ensures call.Some? && result.OrderFailed? ==> error == result.message && success == ""
      ensures call.Some? && result.OrderPlaced? ==>
                error == "" && success == PlacedMessage(result.orderId)
                && items == defaultItems && voucher == ""
    {
      if !QuantitiesAccepted(filtered, items) {
        return None;
      }
      error := "";
      success := "";
      var es := EnumerateEntries(items);
      var cart := Cart(es);
      if userId == "" {
        error := UserMissing;
        return None;
      }
      if cart == [] {
        error := NothingChosen;
        return None;
      }
      call := Some(CreateOrder(userId, cart, voucher));
      match result
      case OrderFailed(m) =>
        error := m;
      case OrderPlaced(id) =>
        success := PlacedMessage(id);
        items := defaultItems;
        voucher := "";
    }
  }
}
