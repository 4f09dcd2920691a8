# Voyatrax client rules in Dafny

Voyatrax is a flight-ticket web application (Next.js over a Supabase
database). This project models the deterministic rules of its client
pages and proves properties of them:

- **The customer's ticket list.** Loaded tickets pass through a chain of
  filters: case-insensitive substring tests on origin, destination and
  airline, and exact tests on date and class. The per-ticket quantity
  record becomes the order items handed to `createOrder`. That happens only
  after a user check and an empty-cart check, and only when the quantities
  on screen pass their input rules.
- **The search form above the list.** It has a round-trip / one-way switch
  that decides whether a return date is sent, and one to eight passengers.
- **The four admin list pages** (tickets, vouchers, airports, airlines).
  Each has a form with field rules checked in react-hook-form's order. An
  `editingId` selects update or create and is cleared by every submit.
  Delete waits for a confirmation.
- **The admin order screen.** A status choice is staged per order and sent
  only when that order's update button is pressed. Each status has a badge.
- **Login and registration.** The email value the form reads is checked
  against `^\S+@\S+$`, then sent trimmed and lower-cased. The role decides where a user
  lands after login.

Server actions (`fetch*`, `create*`, `update*`, `delete*`, `loginWithRole`,
`registerWithEmailPassword`, `createOrder`) are not modelled. Each call is
represented by its arguments, which a method returns, and its answer, which
a method takes as a parameter. The answer is `Remote.Outcome` (success or an
error message), `Remote.Fetch` (rows or an error message), or a page's own
result type. The browser's `confirm` dialog is a boolean parameter. The
router is a recorded destination.

Files:

- `text.dfy`: JavaScript string operations (`trim`, `toLowerCase`,
  `includes`, `slice`, `String(n)`).
- `records.dfy`: the database rows and server outcomes.
- `forms.dfy`: the react-hook-form rules.
- `ticket_search.dfy`: the filter chain.
- `ticket_filter_form.dfy`: the search form.
- `tickets_page.dfy`: quantities, cart and order submit.
- `admin_crud.dfy`: the shared create/edit cycle.
- `admin_tickets.dfy`, `admin_vouchers.dfy`, `admin_airports.dfy`,
  `admin_airlines.dfy`: the four admin list pages.
- `admin_orders.dfy`: the admin order screen.
- `credentials.dfy`: the shared email rule and normalisation.
- `login.dfy`, `register.dfy`: the two account pages.

The admin order screen offers all four statuses for every order and
enforces no transition rule (`AdminOrders.AnyStatusFromAnyStatus`).

## Model

| member | source | states |
|---|---|---|
| TicketSearch.SearchSpec | app/tickets/page.tsx:77-104 | The filtered list is an order-preserving subsequence of the loaded tickets. It holds exactly the loaded tickets that meet every non-empty criterion (soundness and completeness). Filtering it again changes nothing. |
| TicketSearch.SearchIsSelect | app/tickets/page.tsx:77-103 | The chain of six conditional filters equals one pass that keeps the tickets matching every non-empty criterion, in their order. |
| TicketSearch.SelectMembers | app/tickets/page.tsx:79-102 | Origin, destination and airline keep a ticket when its field, lower-cased, contains the lower-cased criterion. Dates and class must be equal. An empty criterion imposes nothing. |
| TicketSearch.DifferentDatesFindNothing | app/tickets/page.tsx:89-94 | Both date criteria test the ticket's single date, so two different non-empty dates leave an empty list. |
| TicketSearch.EmptyCriteriaKeepAll | app/tickets/page.tsx:78-103 | With every criterion empty the list is shown unfiltered. |
| TicketSearch.InitialListIsEconomy | app/tickets/page.tsx:24-31 | Before the first search the class criterion is "economy", so only economy tickets are listed. |
| TicketSearch.SearchAppend | app/tickets/page.tsx:78-102 | The filter chain works ticket by ticket: filtering a concatenation is concatenating the filtered parts. |
| TicketSearch.Search | app/tickets/page.tsx:77-103 | The six conditional filters in the page's order. Its meaning is stated by `TicketSearch.SearchIsSelect` and `TicketSearch.SearchSpec`. |
| TicketSearch.Filter | app/tickets/page.tsx:80 | A filter stage never lengthens the list. |
| Text.ContainsIff | app/tickets/page.tsx:81 | `includes` holds exactly when the searched text occurs at some position. |
| Text.ContainsIgnoringCaseOfLower | app/tickets/page.tsx:81 | The case-insensitive test does not depend on the case of either side. |
| Text.ToLower | app/tickets/page.tsx:81 | Lower-casing keeps the length and maps each character on its own, changing only upper-case ASCII letters. |
| Text.Trim | app/login/page.tsx:23 | The trimmed text is the input with only whitespace removed around it, and it neither starts nor ends with whitespace. |
| Text.TrimIdempotent | app/login/page.tsx:23 | Trimming twice is trimming once. |
| Text.NatToStringRoundTrip | app/tickets/page.tsx:126 | The decimal rendering of an order id reads back as the same number. |
| TicketFilterForm.SearchForm.Submitted | app/tickets/components/TicketFilter.tsx:29-41 | The submitted return date is the typed one on a round trip and "" on a one-way trip. Every other field is passed through unchanged. |
| TicketFilterForm.SearchForm.constructor | app/tickets/components/TicketFilter.tsx:20-27 | The form starts as a round trip, with one passenger, class "economy" and every text field empty. |
| TicketFilterForm.SearchForm.OneWay | app/tickets/components/TicketFilter.tsx:57 | "One-way" turns the round trip off and hides the return-date input. |
| TicketFilterForm.SearchForm.RoundTrip | app/tickets/components/TicketFilter.tsx:68 | "Round-trip" turns it on and shows the return-date input. |
| TicketFilterForm.SearchForm.SetReturnDate | app/tickets/components/TicketFilter.tsx:103-111 | The return date can be typed only while its input is shown. |
| TicketFilterForm.SearchForm.SetOrigin | app/tickets/components/TicketFilter.tsx:77-81 | The origin input sets the origin and nothing else. |
| TicketFilterForm.SearchForm.SetDestination | app/tickets/components/TicketFilter.tsx:86-90 | The destination input sets the destination and nothing else. |
| TicketFilterForm.SearchForm.SetDepartureDate | app/tickets/components/TicketFilter.tsx:95-100 | The departure-date input sets the departure date and nothing else. |
| TicketFilterForm.SearchForm.SetClass | app/tickets/components/TicketFilter.tsx:130-134 | The class select sets the class and nothing else. |
| TicketFilterForm.SearchForm.SetAirline | app/tickets/components/TicketFilter.tsx:144-148 | The airline input sets the airline and nothing else. |
| TicketFilterForm.SearchForm.SetPassengers | app/tickets/components/TicketFilter.tsx:117-121 | The passenger count is set to one of the offered choices. |
| TicketFilterForm.PassengerOptionsAreOneToEight | app/tickets/components/TicketFilter.tsx:122-123 | The passenger choices are exactly 1 to 8, in increasing order. |
| TicketsPage.DefaultQuantities | app/tickets/page.tsx:48-51 | The filled record has exactly the loaded tickets' ids as keys, each with quantity 0. |
| TicketsPage.EntriesMembers | app/tickets/page.tsx:109 | `Object.entries` lists each key of the quantity record with its value, and nothing else. |
| TicketsPage.EntriesIncreasing | app/tickets/page.tsx:109 | The integer keys are listed in increasing order. |
| TicketsPage.EnumerateEntries | app/tickets/page.tsx:109 | The loop builds the same entry list as the `Entries` definition, taking the smallest remaining key each time. |
| TicketsPage.Entries | app/tickets/page.tsx:109 | `Object.entries` of the quantity record, smallest ticket id first. `TicketsPage.EntriesMembers` and `TicketsPage.EntriesIncreasing` state its contents and order. |
| TicketsPage.Cart | app/tickets/page.tsx:109-114 | The entries with a positive quantity, mapped to `{ ticket_id, quantity }`. `TicketsPage.CartSpec` states its contents and order. |
| TicketsPage.CartSpec | app/tickets/page.tsx:109-114 | The order items hold exactly the tickets with a positive quantity, each with its own quantity, in increasing ticket id. Zero, negative and empty quantities are dropped. |
| TicketsPage.PositiveEntriesMembers | app/tickets/page.tsx:110 | The filter stage keeps exactly the entries with a positive number. |
| TicketsPage.ToOrderItemsMembers | app/tickets/page.tsx:111-114 | The map stage turns each kept entry into `{ ticket_id, quantity }` and adds nothing. |
| TicketsPage.CartMembers | app/tickets/page.tsx:109-114 | An order item is exactly a ticket id of the record with a positive number as its quantity. |
| TicketsPage.CartIncreasing | app/tickets/page.tsx:109-114 | The order items come in increasing ticket id. |
| TicketsPage.PositiveEntriesIncreasing | app/tickets/page.tsx:110 | Filtering the entries keeps their increasing key order. |
| TicketsPage.NothingChosenAfterLoad | app/tickets/page.tsx:48-55 | Right after loading, every quantity is 0, so there are no order items. |
| TicketsPage.QuantityError | app/tickets/page.tsx:225-229 | A listed ticket's quantity input fails, with the empty message, exactly when it holds a number below 0 or above the stock. |
| TicketsPage.QuantitiesAccepted | app/tickets/page.tsx:225-229 | Every listed ticket's quantity passes `min: 0, max: t.stock`. It gates `TicketsPage.TicketList.Submit`, and `TicketsPage.AcceptedCartWithinStock` states what it guarantees. |
| TicketsPage.AcceptedCartWithinStock | app/tickets/page.tsx:221-229 | Once the listed inputs pass, no listed ticket is ordered beyond its stock. Tickets hidden by the search are not checked. |
| TicketsPage.TicketList.constructor | app/tickets/page.tsx:18-40 | The page starts with no tickets, no user, an empty quantity record and voucher, empty banners and the initial criteria. |
| TicketsPage.TicketList.SetUser | app/tickets/page.tsx:59-63 | A signed-in user's id is recorded; without a user the id stays as it was. |
| TicketsPage.TicketList.SetVoucher | app/tickets/page.tsx:238-241 | The voucher input sets the voucher code. |
| TicketsPage.TicketList.Load | app/tickets/page.tsx:43-56 | A failed read shows its message. A successful one replaces the tickets, gives each loaded ticket quantity 0 and empties the voucher; these become the form's defaults. |
| TicketsPage.TicketList.ApplySearch | app/tickets/page.tsx:139-142 | A new search replaces the criteria, and the shown list stays the filter of the tickets by them. |
| TicketsPage.TicketList.SetQuantity | app/tickets/page.tsx:221-229 | Typing a quantity changes that ticket's entry only. |
| TicketsPage.TicketList.Submit | app/tickets/page.tsx:106-129 | Nothing happens while a listed quantity fails its rules. A missing user is reported before an empty cart. `createOrder` is called exactly when a user is present and the cart is not empty, with the user, the order items and the voucher. Its error is shown; its success shows the order id and returns the form to its defaults. |
| AdminCrud.WriteFor | app/admin/vouchers/page.tsx:57-63 | Submit updates the row being edited exactly when `editingId` is truthy, and creates otherwise, with the form's values. |
| AdminCrud.EditingRowZeroCreates | app/admin/tickets/page.tsx:64-70 | An `editingId` of 0 is falsy, so editing row 0 creates a new row. |
| AdminCrud.Editor.constructor | app/admin/vouchers/page.tsx:24-43 | A page starts with an empty list, the default form, create mode and no error. |
| AdminCrud.Editor.Fill | app/admin/vouchers/page.tsx:120-123 | Typing into the form replaces its values. |
| AdminCrud.Editor.Submit | app/admin/vouchers/page.tsx:55-67 | An invalid form makes no call. Otherwise the banner is cleared and the write matches the mode. A write error is shown. Then, whatever the outcome, the form is reset, `editingId` becomes null and the list is refreshed. The tickets, airports and airlines pages repeat this at 62-74, 50-62 and 50-62. |
| AdminCrud.Editor.Edit | app/admin/airports/page.tsx:64-69 | Editing puts the row's values in the form and switches to editing that row. |
| AdminCrud.Editor.Delete | app/admin/vouchers/page.tsx:79-84 | No call is made unless the dialog is confirmed. Then the row is deleted, a delete error is shown and the list is refreshed. |
| AdminCrud.Editor.Reset | app/admin/vouchers/page.tsx:86-89 | Reset restores the default values and returns to create mode. |
| AdminCrud.Editor.Refresh | app/admin/vouchers/page.tsx:45-49 | A failed read shows its message and keeps the list. A successful one replaces the list. |
| AdminVouchers.ValidIff | app/admin/vouchers/page.tsx:122-203 | The voucher form is accepted exactly when code and type are filled in, value and quota are numbers of at least 1, and both dates are filled in. |
| AdminVouchers.DefaultsRefused | app/admin/vouchers/page.tsx:35-42 | The empty form is refused, with "Min. 1" for value and quota. |
| AdminVouchers.OfferedTypes | app/admin/vouchers/page.tsx:138-140 | Of the select's choices only "percent" and "nominal" pass; the placeholder does not. |
| AdminVouchers.EditValues | app/admin/vouchers/page.tsx:69-76 | Editing copies a voucher into the form. A missing code or type becomes "", and each date becomes its first ten characters, or "" when missing. |
| AdminVouchers.DatePart | app/admin/vouchers/page.tsx:74-75 | A date is cut to at most ten characters, and a missing one becomes "". |
| AdminVouchers.EditSavedRow | app/admin/vouchers/page.tsx:55-76 | Editing a saved voucher puts back the form values it was saved with. |
| AdminVouchers.SaveEditedRow | app/admin/vouchers/page.tsx:55-76 | Saving the edited values of a complete voucher stores it unchanged. |
| AdminVouchers.HandleEdit | app/admin/vouchers/page.tsx:69-77 | `handleEdit` fills the form with the voucher's edit values and edits its id. |
| AdminVouchers.NewPage | app/admin/vouchers/page.tsx:24-43 | The page starts with the default form, in create mode, with an empty list. |
| AdminVouchers.BadgeFor | app/admin/vouchers/page.tsx:91-101 | "percent" is shown as a percentage in blue; every other type, a missing one included, as nominal in green. The colour always goes with the text. |
| AdminVouchers.ValueDisplay | app/admin/vouchers/page.tsx:274-276 | A percent voucher shows its value followed by "%"; any other shows a rupiah amount. |
| AdminVouchers.BadgeAgreesWithValue | app/admin/vouchers/page.tsx:264-276 | The badge and the value column agree on the kind of discount. |
| AdminTickets.ValidIff | app/admin/tickets/page.tsx:147-204 | The ticket form is accepted exactly when date, departure time and class are filled in and neither price nor stock is a negative number. |
| AdminTickets.ClassOptionsAccepted | app/admin/tickets/page.tsx:199-204 | The default class "economy" is one of the three options, and every option passes the class rule. |
| AdminTickets.DefaultsRefused | app/admin/tickets/page.tsx:41-49 | The default form is refused for its date and departure time only. |
| AdminTickets.EditValues | app/admin/tickets/page.tsx:76-85 | Editing copies all eight fields, with price and stock as numbers. |
| AdminTickets.EditSavedRow | app/admin/tickets/page.tsx:62-85 | Editing a saved ticket puts back the form values it was saved with. |
| AdminTickets.SaveEditedRow | app/admin/tickets/page.tsx:62-85 | Saving the edited values of a ticket stores it unchanged. |
| AdminTickets.HandleEdit | app/admin/tickets/page.tsx:76-86 | `handleEdit` fills the form with the ticket's values and edits its id. |
| AdminTickets.NewPage | app/admin/tickets/page.tsx:29-50 | The page starts with the default form, in create mode. |
| AdminAirports.CodeError | app/admin/airports/page.tsx:123-131 | The code passes exactly when it is three ASCII letters, either case. An empty code, a wrong length and a non-letter each get their own message, in that order. |
| AdminAirports.CodeCaseIgnored | app/admin/airports/page.tsx:123-132 | Case does not matter to the code's rules; nothing upper-cases the code. |
| AdminAirports.ValidIff | app/admin/airports/page.tsx:97-131 | The airport form is accepted exactly when city and name are filled in and the code is three letters. |
| AdminAirports.EditValues | app/admin/airports/page.tsx:64-67 | Editing copies city, name and code. |
| AdminAirports.EditRoundTrip | app/admin/airports/page.tsx:50-68 | Editing a saved airport gives back its form values; saving edited values stores the airport unchanged. |
| AdminAirports.HandleEdit | app/admin/airports/page.tsx:64-69 | `handleEdit` fills the form and edits the airport's id. |
| AdminAirports.NewPage | app/admin/airports/page.tsx:22-38 | The page starts with the default form, in create mode. |
| AdminAirlines.ValidIff | app/admin/airlines/page.tsx:97-127 | The airline form is accepted exactly when name and code are filled in. The code has no length or pattern rule, and the country none at all. |
| AdminAirlines.EditValues | app/admin/airlines/page.tsx:64-67 | Editing copies name and code, and a missing country becomes "". |
| AdminAirlines.EditRoundTrip | app/admin/airlines/page.tsx:50-68 | Editing a saved airline gives back its form values; an airline with a country is stored unchanged after an edit. |
| AdminAirlines.MissingCountryEditsAsEmpty | app/admin/airlines/page.tsx:67 | An airline without a country comes back from an edit with an empty one. |
| AdminAirlines.HandleEdit | app/admin/airlines/page.tsx:64-69 | `handleEdit` fills the form and edits the airline's id. |
| AdminAirlines.NewPage | app/admin/airlines/page.tsx:22-38 | The page starts with the default form, in create mode. |
| Forms.Required | app/admin/airports/page.tsx:99 | A required field fails exactly on the empty string, with its message. |
| Forms.RequiredAtLeast | app/admin/vouchers/page.tsx:152-156 | An empty number input fails `required`; a number below the bound fails `min`; anything else passes. |
| Forms.AtLeast | app/admin/tickets/page.tsx:175 | The `min: 0` shorthand fails with the empty message on a smaller number, and skips an empty input. |
| AdminOrders.SelectorValue | app/admin/orders/page.tsx:146 | The selector shows the staged choice for the order, or else its stored status. `AdminOrders.SelectorAfterChoice` states how a choice changes it. |
| AdminOrders.SelectorAfterChoice | app/admin/orders/page.tsx:28-30 | A choice shows in that order's selector and in no other; the selector otherwise shows the order's stored status. |
| AdminOrders.AnyStatusFromAnyStatus | app/admin/orders/page.tsx:146-156 | Every offered status can be chosen for every order, whatever its stored status: there is no transition rule. |
| AdminOrders.BadgeStyle | app/admin/orders/page.tsx:40-51 | A status gets a colour of its own exactly when it is one of the four known statuses; any other string gets the grey fallback. |
| AdminOrders.BadgeStylesDistinct | app/admin/orders/page.tsx:41-46 | The four known statuses get four different styles. |
| AdminOrders.OrdersAdmin.constructor | app/admin/orders/page.tsx:11-15 | The screen starts with no orders, no error and nothing staged. |
| AdminOrders.OrdersAdmin.ChangeStatus | app/admin/orders/page.tsx:28-30 | Choosing a status stages it under that order only; every other staged choice is unchanged. |
| AdminOrders.OrdersAdmin.UpdateStatus | app/admin/orders/page.tsx:32-38 | Without a staged choice no call is made. Otherwise the choice is sent. An error is shown and the list kept; on success the list is refreshed. The staged choice is not cleared. |
| AdminOrders.OrdersAdmin.Refresh | app/admin/orders/page.tsx:18-22 | A failed read shows its message. A successful one replaces the list. |
| Credentials.EmailPattern | app/login/page.tsx:66 | `/^\S+@\S+$/i` as a split around an '@' with a non-empty, whitespace-free run on each side. `Credentials.EmailPatternIff` states it without the split. |
| Credentials.Normalise | app/login/page.tsx:23 | `email.trim().toLowerCase()`. `Credentials.NormalisedShape`, `Credentials.NormaliseIdempotent` and `Credentials.AcceptedEmailIsSentLowerCased` state its properties. |
| Credentials.EmailPatternIff | app/login/page.tsx:66 | `^\S+@\S+$` holds exactly when the text has no whitespace and an '@' that is neither first nor last. |
| Credentials.EmailError | app/register/page.tsx:77-83 | An empty email fails `required`, and a non-empty one failing the pattern gets the pattern's message. |
| Credentials.NormalisedShape | app/login/page.tsx:23 | A normalised email has no whitespace at its ends and no upper-case letter. |
| Credentials.NormaliseIdempotent | app/login/page.tsx:23 | Normalising an already normalised email leaves it unchanged. |
| Credentials.AcceptedEmailIsSentLowerCased | app/login/page.tsx:23-66 | An email that passes the pattern has nothing to trim. It is sent lower-cased and still passes the pattern. |
| Login.ValidIff | app/login/page.tsx:64-82 | The login form is accepted exactly when the email passes the pattern and a password is given. |
| Login.LandingFor | app/login/page.tsx:32-38 | Role "admin" leads to /admin/dashboard and "user" to /tickets. Any other role, a missing one included, leads nowhere. |
| Login.LoginPage.constructor | app/login/page.tsx:11-19 | The page starts with an empty form, no error and no navigation. |
| Login.LoginPage.Fill | app/login/page.tsx:64-82 | Typing into the form replaces its values. |
| Login.LoginPage.Submit | app/login/page.tsx:21-39 | An invalid form makes no call. Otherwise the banner is cleared and the normalised email and unchanged password are sent. An error is shown without navigating. A known role navigates; any other role shows "Role tidak ditemukan, hubungi admin." |
| Login.SentEmail | app/login/page.tsx:23-25 | The email sent from an accepted form is the typed one lower-cased. |
| Register.PasswordError | app/register/page.tsx:98-101 | The password passes exactly when it has at least six characters. An empty one and a short one get their own messages. |
| Register.ValidIff | app/register/page.tsx:62-101 | The registration form is accepted exactly when a name is given, the email passes the pattern and the password has at least six characters. |
| Register.RegisterPage.constructor | app/register/page.tsx:11-19 | The page starts with an empty form, no error and no navigation. |
| Register.RegisterPage.Fill | app/register/page.tsx:62-101 | Typing into the form replaces its values. |
| Register.RegisterPage.Submit | app/register/page.tsx:21-38 | An invalid form makes no call. Otherwise the banner is cleared and the name, normalised email and password are sent. An error is shown and the page stays; success goes to /login. |
| Remote.Reported | app/admin/vouchers/page.tsx:59 | A failed call's message replaces the banner, and a successful call leaves it alone. |
| Records.OrEmpty | app/admin/airlines/page.tsx:67 | A missing optional text becomes "". |

## Left out

- Order placement is not part of this model. That covers pricing, voucher discounting, and stock and quota decrements in `createOrder` (app/(actions)/orderActions.ts). The model stops at the arguments of the call and takes its answer as a parameter.
- All server actions and database calls are foreign I/O. They are represented only by their arguments and an abstract answer. This includes `auth.getUser` on the ticket list (`TicketsPage.TicketList.SetUser` takes the user it yields).
- React rendering, hooks and effect scheduling are not modelled. A `refresh()` after a write or delete is not awaited in the source; the model applies the refreshed list at the end of the same handler.
- The ticket list's voucher cards are not modelled. That covers `fetchVouchers` and its "Gagal mengambil data voucher." banner (app/tickets/page.tsx:67-75), which only feed a display.
- Text.ToLower: lower-cases only ASCII A-Z. JavaScript's `toLowerCase` also folds other Unicode letters.
- AdminAirports.CodeError: lengths are counted in characters, not UTF-16 code units. A code with a character outside the Basic Multilingual Plane could get "Kode harus 3 huruf" where the page reports "Kode hanya huruf".
- Register.PasswordError: the length is counted in characters, not UTF-16 code units as `minLength` counts them. A password of three characters outside the Basic Multilingual Plane (three emoji, six code units) is accepted by the page but gets "Minimal 6 karakter" in the model.
- AdminVouchers.ValueDisplay: the nominal amount is kept as a number. Its `toLocaleString("id-ID")` digits and separators are library locale formatting.
- Number inputs are whole numbers or empty (`Forms.NumberValue`). Fractional values are not modelled.
- TicketsPage.TicketList.Submit: quantity keys are ticket ids held as natural numbers, so the `String(id)` / `Number(key)` round trip through object keys is taken as exact.
- AdminOrders.BadgeStyle: a status that names an `Object.prototype` member, such as "constructor", would find an inherited value in the style map. The model treats it as unknown (grey).
- A read whose `data` is null is taken as an empty `Rows` list, matching `data || []`.
- The browser's handling of the `type="email"` inputs on the login and registration pages is not modelled, because it runs outside the page's code. That covers its native validity check and its value clean-up, which removes line breaks and leading and trailing ASCII whitespace before react-hook-form reads the value. The model applies the pattern to the value as given, so `Login.ValidIff` and `Register.ValidIff` refuse " a@b.com ", which the browser would hand over as "a@b.com". On the pages the `trim` in `Credentials.Normalise` therefore only ever sees text the browser has already stripped.
- The class choices of the search form come from constants/classOptions, which is not part of this model; TicketFilterForm.SearchForm.SetClass accepts any text.
- The customer order history, the dashboard, the autocomplete inputs, the header and the static pages are not part of this model. They are presentation, charts, exports, or per-keystroke network lookups.
