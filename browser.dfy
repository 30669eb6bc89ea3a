/**
 * What the views receive from the browser (input change events) and what
 * they hand back to it (requests for the backend, page navigation). Network
 * calls and navigation are not performed: they are returned as values.
 */
module Browser {
  import opened JsValues
  import opened Fields
  import opened FormData

  /**
   * An input change event, as `e.target` describes it. A text or number
   * input delivers its text; `parsed` is what `parseFloat` makes of that
   * text, taken as given. A file input delivers its FileList, whose items
   * are picked files (never image records), named here by number.
   */
  datatype InputEvent =
    | TextInput(name: Field, value: string, parsed: Number)
    | FileInput(name: Field, files: seq<nat>)

  /** The FileList of a file input, as the attachments a record stores. */
  function Uploads(files: seq<nat>): (r: seq<Attachment>)
    ensures |r| == |files|
    ensures forall i :: 0 <= i < |files| ==> r[i] == Upload(files[i])
  {
    seq(|files|, i requires 0 <= i < |files| => Upload(files[i]))
  }

  /**
   * The value a text or number input stores under its name: the parsed number
   * for `price_per_night`, the raw text for every other field, numeric
   * inputs included.
   */
  function InputValue(name: Field, value: string, parsed: Number): (v: Value)
    ensures v.Num? <==> name == PricePerNight
    ensures name == PricePerNight ==> v.n == parsed
    ensures name != PricePerNight ==> v == Str(value)
  {
    if name == PricePerNight then Num(parsed) else Str(value)
  }

  /** A backend request the view issues (with the session's credentials). */
  datatype Request =
    | Patch(propertyId: nat, form: Form)   // PATCH /api/properties/:id
    | Post(form: Form)                     // POST /api/properties
    | DeleteProperty(propertyId: nat)      // DELETE /api/properties/:id

  /** A page-level effect the view triggers once a request has succeeded. */
  datatype Effect = Reload | NavigateTo(path: string)
}
