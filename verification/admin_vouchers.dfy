/**
 * The voucher admin page (app/admin/vouchers/page.tsx): the voucher form,
 * its field rules, how a stored voucher is copied into it for editing, and
 * how a voucher's type and value are displayed.
 */
module AdminVouchers {
  import opened Wrappers
  import opened Text
  import opened Records
  import opened Forms
  import AdminCrud

  /** `VoucherFormInput` */
  datatype VoucherForm = VoucherForm(
    code: string,
    discountType: string,
    discountValue: NumberValue,
    quota: NumberValue,
    validFrom: string,
    validUntil: string)

  /** The form's `defaultValues`. */
  const Defaults := VoucherForm("", "", Num(0), Num(0), "", "")

  /** The discount-type select: the placeholder and the two types. */
  const DiscountTypes: seq<string> := ["", "percent", "nominal"]

  function CodeError(code: string): Option<string> {
    Required(code, "Kode voucher wajib diisi")
  }

  function DiscountTypeError(t: string): Option<string> {
    Required(t, "Tipe diskon wajib diisi")
  }

  function DiscountValueError(v: NumberValue): Option<string> {
    RequiredAtLeast(v, 1, "Nilai diskon wajib diisi", "Min. 1")
  }

  function QuotaError(v: NumberValue): Option<string> {
    RequiredAtLeast(v, 1, "Kuota wajib diisi", "Min. 1")
  }

  function ValidFromError(d: string): Option<string> {
    Required(d, "Tanggal mulai wajib diisi")
  }

  function ValidUntilError(d: string): Option<string> {
    Required(d, "Tanggal akhir wajib diisi")
  }

  /** No field reports an error, so `handleSubmit` calls `onSubmit`. */
  predicate Valid(f: VoucherForm) {
    && CodeError(f.code).None?
    && DiscountTypeError(f.discountType).None?
    && DiscountValueError(f.discountValue).None?
    && QuotaError(f.quota).None?
    && ValidFromError(f.validFrom).None?
    && ValidUntilError(f.validUntil).None?
  }

  /** The form is accepted exactly when the code and the type are filled
      in, the value and the quota are numbers of at least 1, and both dates
      are filled in. */
  lemma ValidIff(f: VoucherForm)
    ensures Valid(f) <==>
              f.code != "" && f.discountType != ""
              && f.discountValue.Num? && f.discountValue.n >= 1
              && f.quota.Num? && f.quota.n >= 1
              && f.validFrom != "" && f.validUntil != ""
  {
  }

  /** The empty form is refused, with the code's and the value's messages. */
  lemma DefaultsRefused()
    ensures !Valid(Defaults)
    ensures CodeError(Defaults.code) == Some("Kode voucher wajib diisi")
    ensures DiscountValueError(Defaults.discountValue) == Some("Min. 1")
    ensures QuotaError(Defaults.quota) == Some("Min. 1")
  {
  }

  /** A type picked from the select passes its rule only when it is one of
      the two real types. */
  lemma OfferedTypes(t: string)
    requires t in DiscountTypes
    ensures DiscountTypeError(t).None? <==> t == "percent" || t == "nominal"
  {
  }

  /** `v.valid_from?.slice(0, 10) || ""`: the date part of a stored date,
      or "" when it is missing. */
  function DatePart(d: Option<string>): (r: string)
    ensures |r| <= 10
    ensures d.Some? ==> r == Prefix(d.value, 10)
    ensures d.None? ==> r == ""
  {
    if d.Some? then Prefix(d.value, 10) else ""
  }

  /** `handleEdit`'s mapping: a missing code or type becomes "", the numbers
      are copied, and each date is cut to its first ten characters. */
  function EditValues(v: Voucher): (f: VoucherForm)
    ensures f.code == OrEmpty(v.code) && f.discountType == OrEmpty(v.discountType)
    ensures f.discountValue == Num(v.discountValue) && f.quota == Num(v.quota)
    ensures f.validFrom == DatePart(v.validFrom) && f.validUntil == DatePart(v.validUntil)
  {
    VoucherForm(OrEmpty(v.code), OrEmpty(v.discountType), Num(v.discountValue), Num(v.quota),
                DatePart(v.validFrom), DatePart(v.validUntil))
  }

  /** The row stored by `createVoucher`/`updateVoucher` for a form that
      passed its rules, when the store keeps the values as written. */
  function SavedRow(id: nat, f: VoucherForm): Voucher
    requires f.discountValue.Num? && f.quota.Num?
  {
    Voucher(id, Some(f.code), Some(f.discountType), f.discountValue.n, f.quota.n,
            Some(f.validFrom), Some(f.validUntil))
  }

  /** Editing a saved voucher puts back the values it was saved with, as
      long as its dates are date-input values (at most ten characters). */
  lemma {:induction false} EditSavedRow(id: nat, f: VoucherForm)
    requires Valid(f) && |f.validFrom| <= 10 && |f.validUntil| <= 10
    ensures EditValues(SavedRow(id, f)) == f
  {
    assert Prefix(f.validFrom, 10) == f.validFrom;
    assert Prefix(f.validUntil, 10) == f.validUntil;
  }

  /** Saving the edited values of a voucher whose text columns are all
      present and whose dates are date parts stores the voucher unchanged. */
  lemma {:induction false} SaveEditedRow(v: Voucher)
    requires v.code.Some? && v.discountType.Some? && v.validFrom.Some? && v.validUntil.Some?
    requires |v.validFrom.value| <= 10 && |v.validUntil.value| <= 10
    ensures SavedRow(v.id, EditValues(v)) == v
  {
    assert Prefix(v.validFrom.value, 10) == v.validFrom.value;
    assert Prefix(v.validUntil.value, 10) == v.validUntil.value;
  }

  /** What `badgeType` draws: its text and its colour classes. */
  datatype Badge = Badge(text: string, style: string)

  /** `badgeType`: one test picks both the text and the colour, a
      percentage in blue for "percent" and nominal in green for every other
      type, a missing one included. */
  function BadgeFor(t: Option<string>): (b: Badge)
    ensures b.text == "Persen (%)" <==> t == Some("percent")
    ensures b.text == "Nominal (Rp)" <==> t != Some("percent")
    ensures b.style == "bg-blue-50 text-blue-700" <==> b.text == "Persen (%)"
    ensures b.style == "bg-green-50 text-green-700" <==> b.text == "Nominal (Rp)"
  {
    if t == Some("percent") then Badge("Persen (%)", "bg-blue-50 text-blue-700")
    else Badge("Nominal (Rp)", "bg-green-50 text-green-700")
  }

  /** The value column: a percentage is shown as its number and "%"; any
      other type as a rupiah amount, whose "id-ID" digits are not modelled. */
  datatype ValueShown = Percent(text: string) | Rupiah(amount: int)

  function ValueDisplay(v: Voucher): (d: ValueShown)
    ensures d.Percent? <==> v.discountType == Some("percent")
    ensures d.Percent? ==> d.text == IntToString(v.discountValue) + "%"
    ensures d.Rupiah? ==> d.amount == v.discountValue
  {
    if v.discountType == Some("percent") then Percent(IntToString(v.discountValue) + "%")
    else Rupiah(v.discountValue)
  }

  /** The badge and the value column always agree on the kind of discount. */
  lemma BadgeAgreesWithValue(v: Voucher)
    ensures BadgeFor(v.discountType).text == "Persen (%)" <==> ValueDisplay(v).Percent?
  {
  }

  /** The page as it starts: the default form, in create mode. */
  method NewPage() returns (page: AdminCrud.Editor<VoucherForm, Voucher>)
    ensures fresh(page)
    ensures page.defaults == Defaults && forall f :: page.valid(f) == Valid(f)
    ensures page.form == Defaults && page.editingId == None && page.error == "" && page.rows == []
  {
    page := new AdminCrud.Editor(Defaults, (f: VoucherForm) => Valid(f));
  }

  /** `handleEdit(v)` */
  method HandleEdit(page: AdminCrud.Editor<VoucherForm, Voucher>, v: Voucher)
    modifies page`form, page`editingId
    ensures page.form == EditValues(v) && page.editingId == Some(v.id)
  {
    page.Edit(v.id, EditValues(v));
  }
}
