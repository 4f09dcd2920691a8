/**
 * The react-hook-form rules the pages register on their inputs. A rule
 * reports its message when it fails; a field reports the message of its
 * first failing rule, in the library's order: `required`, then `min`, then
 * `minLength`/`maxLength`, then `pattern`. The other rules are skipped on an
 * empty input, so only `required` can fail there.
 */
module Forms {
  import opened Wrappers

  /** The value of an `<input type="number">` registered with
      `valueAsNumber`: a number, or NaN when the input is empty. */
  datatype NumberValue = Num(n: int) | NotANumber

  /** `required: message` on a text input or a select: only the empty
      string fails. */
  function Required(value: string, message: string): (e: Option<string>)
    ensures e.None? <==> value != ""
    ensures e.Some? ==> e.value == message
  {
    if value == "" then Some(message) else None
  }

  /** `{ valueAsNumber: true, required: message, min: { value: lo, message: tooSmall } }`:
      an empty input fails `required`; a number below `lo` fails `min`. */
  function RequiredAtLeast(v: NumberValue, lo: int, message: string, tooSmall: string): (e: Option<string>)
    ensures e.None? <==> v.Num? && v.n >= lo
    ensures v.NotANumber? ==> e == Some(message)
    ensures v.Num? && v.n < lo ==> e == Some(tooSmall)
  {
    match v
    case NotANumber => Some(message)
    case Num(n) => if n < lo then Some(tooSmall) else None
  }

  /** `{ valueAsNumber: true, min: lo }`: the shorthand form carries no
      message, so a failure reports the empty message; an empty input is
      not checked at all. */
  function AtLeast(v: NumberValue, lo: int): (e: Option<string>)
    ensures e.None? <==> v.NotANumber? || v.n >= lo
    ensures e.Some? ==> e.value == ""
  {
    if v.Num? && v.n < lo then Some("") else None
  }
}
