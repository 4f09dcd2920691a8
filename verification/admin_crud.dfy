/**
 * The create/edit cycle the four admin list pages (tickets, vouchers,
 * airports, airlines) share: a react-hook-form form, an `editingId` that
 * selects between creating and updating, a list refreshed from the server
 * and an error banner. The pages differ only in their form values, their
 * field rules and how a row is copied into the form; those live in each
 * page's module.
 */
module AdminCrud {
  import opened Wrappers
  import opened Remote

  /** `if (editingId)`: `null` and the id 0 are both falsy. */
  predicate IsEditing(editingId: Option<nat>) {
    editingId.Some? && editingId.value != 0
  }

  /** The server write a submit makes: `create*(formData)` or
      `update*(editingId, formData)`. */
  datatype Write<F> = Create(values: F) | Update(id: nat, values: F)

  /** The write for the current mode: an update of the row being edited
      when `editingId` is truthy, a create otherwise. */
  function WriteFor<F>(editingId: Option<nat>, values: F): (w: Write<F>)
    ensures w.values == values
    ensures w.Update? <==> IsEditing(editingId)
    ensures w.Update? ==> w.id == editingId.value
  {
    if IsEditing(editingId) then Update(editingId.value, values) else Create(values)
  }

  /** A row whose id is 0 can be edited but never updated: submitting it
      creates a new row instead. */
  lemma EditingRowZeroCreates<F>(values: F)
    ensures WriteFor(Some(0), values) == Create(values)
    ensures forall id: nat :: id != 0 ==> WriteFor(Some(id), values) == Update(id, values)
  {
  }

  /** One admin page's state. `defaults` are the form's `defaultValues`,
      which `reset()` restores; `valid` is what `handleSubmit` requires of
      the form before it calls `onSubmit`. */
  class Editor<F, R> {
    const defaults: F
    const valid: F -> bool
    var rows: seq<R>
    var form: F
    var editingId: Option<nat>
    var error: string

    constructor (defaults: F, valid: F -> bool)
      ensures this.defaults == defaults && this.valid == valid
      ensures rows == [] && form == defaults && editingId == None && error == ""
    {
      this.defaults := defaults;
      this.valid := valid;
      rows := [];
      form := defaults;
      editingId := None;
      error := "";
    }

    /** `refresh`: a failed read shows its message and keeps the list; a
        successful one replaces the list and leaves the banner alone. */
    method Refresh(fetched: Fetch<R>)
      modifies this`rows, this`error
      ensures fetched.Rows? ==> rows == fetched.data && error == old(error)
      ensures fetched.FetchFailed? ==> rows == old(rows) && error == fetched.message
    {
      match fetched
      case Rows(data) =>
        rows := data;
      case FetchFailed(m) =>
        error := m;
    }

    /** Typing into the form. */
    method Fill(values: F)
      modifies this`form
      ensures form == values
    {
      form := values;
    }

    /** `handleSubmit(onSubmit)`. An invalid form makes no call and changes
        nothing. Otherwise the banner is cleared, the form is written
        (updated when editing, created otherwise), a write error is shown,
        and whatever the write gave back the form returns to its defaults,
        the page returns to create mode and the list is refreshed. */
    method Submit(written: Outcome, refreshed: Fetch<R>) returns (call: Option<Write<F>>)
      modifies this`form, this`editingId, this`error, this`rows
      ensures !valid(old(form)) ==>
                call == None && form == old(form) && editingId == old(editingId)
                && error == old(error) && rows == old(rows)
      ensures valid(old(form)) ==>
                call == Some(WriteFor(old(editingId), old(form)))
                && form == defaults && editingId == None
      ensures valid(old(form)) && refreshed.Rows? ==>
                rows == refreshed.data && error == Reported("", written)
      ensures valid(old(form)) && refreshed.FetchFailed? ==>
                rows == old(rows) && error == refreshed.message
    {
      if !valid(form) {
        return None;
      }
      error := "";
      call := Some(WriteFor(editingId, form));
      error := Reported(error, written);
      form := defaults;
      editingId := None;
      Refresh(refreshed);
    }

    /** `handleEdit`: the row's values go into the form and the page
        switches to editing that row. */
    method Edit(id: nat, values: F)
      modifies this`form, this`editingId
      ensures form == values && editingId == Some(id)
    {
      form := values;
      editingId := Some(id);
    }

    /** `handleDelete`: nothing happens unless the dialog is confirmed; then
        the row is deleted, a delete error is shown (the banner is not
        cleared first) and the list is refreshed. The mode and the form are
        left as they are. */
    method Delete(id: nat, confirmed: bool, deleted: Outcome, refreshed: Fetch<R>) returns (call: Option<nat>)
      modifies this`error, this`rows
      ensures call.Some? <==> confirmed
      ensures call.Some? ==> call.value == id
      ensures !confirmed ==> error == old(error) && rows == old(rows)
      ensures confirmed && refreshed.Rows? ==>
                rows == refreshed.data && error == Reported(old(error), deleted)
      ensures confirmed && refreshed.FetchFailed? ==>
                rows == old(rows) && error == refreshed.message
    {
      if !confirmed {
        return None;
      }
      call := Some(id);
      error := Reported(error, deleted);
      Refresh(refreshed);
    }

    /** `handleReset`: back to the default values and to create mode. */
    method Reset()
      modifies this`form, this`editingId
      ensures form == defaults && editingId == None
      ensures !IsEditing(editingId)
    {
      form := defaults;
      editingId := None;
    }
  }
}
