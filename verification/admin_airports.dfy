/**
 * The airport admin page (app/admin/airports/page.tsx): the airport form,
 * its field rules (a three-letter code) and how a stored airport is copied
 * into it for editing.
 */
module AdminAirports {
  import opened Wrappers
  import opened Text
  import opened Records
  import opened Forms
  import AdminCrud

  /** `AirportFormInput` */
  datatype AirportForm = AirportForm(city: string, name: string, code: string)

  /** The form's `defaultValues`. */
  const Defaults := AirportForm("", "", "")

  function CityError(city: string): Option<string> {
    Required(city, "Kota wajib diisi")
  }

  function NameError(name: string): Option<string> {
    Required(name, "Nama bandara wajib diisi")
  }

  /** `/^[A-Za-z]+$/` */
  predicate OnlyLetters(s: string) {
    s != [] && forall i :: 0 <= i < |s| ==> IsAsciiLetter(s[i])
  }

  /** The code's rules in the library's order: required, then the length
      (both bounds are 3 and share one message), then the letters-only
      pattern. */
  function CodeError(code: string): (e: Option<string>)
    ensures e.None? <==> |code| == 3 && forall i :: 0 <= i < 3 ==> IsAsciiLetter(code[i])
    ensures code == "" ==> e == Some("Kode wajib diisi")
    ensures code != "" && |code| != 3 ==> e == Some("Kode harus 3 huruf")
    ensures |code| == 3 && !OnlyLetters(code) ==> e == Some("Kode hanya huruf")
  {
    if code == "" then Some("Kode wajib diisi")
    else if |code| < 3 || |code| > 3 then Some("Kode harus 3 huruf")
    else if !OnlyLetters(code) then Some("Kode hanya huruf")
    else None
  }

  /** The code is taken as typed: its case does not matter to the rules,
      and nothing upper-cases it (the upper case on screen is styling). */
  lemma {:induction false} CodeCaseIgnored(code: string)
    ensures CodeError(ToLower(code)) == CodeError(code)
  {
    var low := ToLower(code);
    assert OnlyLetters(low) <==> OnlyLetters(code) by {
      assert forall i :: 0 <= i < |code| ==> low[i] == LowerChar(code[i]);
    }
  }

  /** No field reports an error. */
  predicate Valid(f: AirportForm) {
    CityError(f.city).None? && NameError(f.name).None? && CodeError(f.code).None?
  }

  /** The form is accepted exactly when city and name are filled in and the
      code is three ASCII letters, upper or lower case. */
  lemma ValidIff(f: AirportForm)
    ensures Valid(f) <==>
              f.city != "" && f.name != "" && |f.code| == 3 && OnlyLetters(f.code)
  {
  }

  /** `handleEdit`'s mapping: city, name and code are copied. */
  function EditValues(a: Airport): (f: AirportForm)
    ensures f.city == a.city && f.name == a.name && f.code == a.code
  {
    AirportForm(a.city, a.name, a.code)
  }

  /** The row stored by `createAirport`/`updateAirport`, when the store keeps
      the values as written. */
  function SavedRow(id: nat, f: AirportForm): Airport {
    Airport(id, f.city, f.name, f.code)
  }

  /** Editing a saved airport puts back the values it was saved with, and
      saving the edited values of an airport stores it unchanged. */
  lemma EditRoundTrip(id: nat, f: AirportForm, a: Airport)
    ensures EditValues(SavedRow(id, f)) == f
    ensures SavedRow(a.id, EditValues(a)) == a
  {
  }

  /** The page as it starts: the default form, in create mode. */
  method NewPage() returns (page: AdminCrud.Editor<AirportForm, Airport>)
    ensures fresh(page)
    ensures page.defaults == Defaults && forall f :: page.valid(f) == Valid(f)
    ensures page.form == Defaults && page.editingId == None && page.error == "" && page.rows == []
  {
    page := new AdminCrud.Editor(Defaults, (f: AirportForm) => Valid(f));
  }

  /** `handleEdit(airport)` */
  method HandleEdit(page: AdminCrud.Editor<AirportForm, Airport>, a: Airport)
    modifies page`form, page`editingId
    ensures page.form == EditValues(a) && page.editingId == Some(a.id)
  {
    page.Edit(a.id, EditValues(a));
  }
}
