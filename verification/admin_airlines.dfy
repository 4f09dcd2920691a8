/**
 * The airline admin page (app/admin/airlines/page.tsx): the airline form,
 * its field rules and how a stored airline is copied into it for editing.
 */
module AdminAirlines {
  import opened Wrappers
  import opened Records
  import opened Forms
  import AdminCrud

  /** `AirlineFormInput`; the country is optional and starts empty. */
  datatype AirlineForm = AirlineForm(name: string, code: string, country: string)

  /** The form's `defaultValues`. */
  const Defaults := AirlineForm("", "", "")

  function NameError(name: string): Option<string> {
    Required(name, "Nama wajib diisi")
  }

  /** The code is only required: no length and no pattern. */
  function CodeError(code: string): Option<string> {
    Required(code, "Kode wajib diisi")
  }

  /** No field reports an error; the country has no rule. */
  predicate Valid(f: AirlineForm) {
    NameError(f.name).None? && CodeError(f.code).None?
  }

  /** The form is accepted exactly when name and code are filled in,
      whatever the country and whatever the code's length or characters. */
  lemma ValidIff(f: AirlineForm)
    ensures Valid(f) <==> f.name != "" && f.code != ""
    ensures forall c :: Valid(f) ==> Valid(f.(country := c))
  {
  }

  /** `handleEdit`'s mapping: name and code are copied, a missing country
      becomes "". */
  function EditValues(a: Airline): (f: AirlineForm)
    ensures f.name == a.name && f.code == a.code
    ensures f.country == OrEmpty(a.country)
  {
    AirlineForm(a.name, a.code, OrEmpty(a.country))
  }

  /** The row stored by `createAirline`/`updateAirline`, when the store keeps
      the values as written. */
  function SavedRow(id: nat, f: AirlineForm): Airline {
    Airline(id, f.name, f.code, Some(f.country))
  }

  /** Editing a saved airline puts back the values it was saved with; saving
      the edited values of an airline with a country stores it unchanged. */
  lemma EditRoundTrip(id: nat, f: AirlineForm, a: Airline)
    ensures EditValues(SavedRow(id, f)) == f
    ensures a.country.Some? ==> SavedRow(a.id, EditValues(a)) == a
  {
  }

  /** An airline stored without a country comes back from an edit with an
      empty one. */
  lemma MissingCountryEditsAsEmpty(a: Airline)
    requires a.country.None?
    ensures SavedRow(a.id, EditValues(a)) == a.(country := Some(""))
  {
  }

  /** The page as it starts: the default form, in create mode. */
  method NewPage() returns (page: AdminCrud.Editor<AirlineForm, Airline>)
    ensures fresh(page)
    ensures page.defaults == Defaults && forall f :: page.valid(f) == Valid(f)
    ensures page.form == Defaults && page.editingId == None && page.error == "" && page.rows == []
  {
    page := new AdminCrud.Editor(Defaults, (f: AirlineForm) => Valid(f));
  }

  /** `handleEdit(airline)` */
  method HandleEdit(page: AdminCrud.Editor<AirlineForm, Airline>, a: Airline)
    modifies page`form, page`editingId
    ensures page.form == EditValues(a) && page.editingId == Some(a.id)
  {
    page.Edit(a.id, EditValues(a));
  }
}
