/** The administrators' product form: its initial values, the coercion of
    numeric inputs, and the guards a submission passes before the product is
    created. */
module ProductModal {
  import opened Js
  import opened Http
  import opened Session

  /** The fields of an existing product that seed the form in edit mode. */
  datatype Seed = Seed(
    name: string,
    price: int,
    quantity: int,
    discount: int,
    soldCount: int,
    daysValid: int,
    description: string,
    faq: string)

  /** A form value: the text of a text input, or what `Number` made of a numeric one. */
  datatype Value = Text(text: string) | Number(n: Num)

  /** The form state, keyed by the inputs' `name` attributes. */
  type Form = map<string, Value>

  const NumericFields: set<string> := {"price", "quantity", "discount", "days_valid", "sold_count"}
  const TextFields: set<string> := {"name", "description", "frequently_asked_questions"}
  const DefaultDaysValid: int := 365

  /** Every field the form starts with is present, numeric fields hold numbers
      and text fields hold text. */
  predicate WellFormed(form: Form) {
    && (forall k :: k in NumericFields ==> k in form && form[k].Number?)
    && (forall k :: k in TextFields ==> k in form && form[k].Text?)
  }

  /** `product?.field || default`: a falsy seed value (absent, empty, zero)
      falls back, which turns a validity of zero days into 365. */
  function Initial(product: Option<Seed>): (form: Form)
    ensures WellFormed(form)
    ensures product.None? ==>
              && form["name"] == Text("") && form["description"] == Text("")
              && form["frequently_asked_questions"] == Text("")
              && form["price"] == Number(Int(0)) && form["quantity"] == Number(Int(0))
              && form["discount"] == Number(Int(0)) && form["sold_count"] == Number(Int(0))
              && form["days_valid"] == Number(Int(DefaultDaysValid))
    ensures product.Some? ==>
              form["days_valid"] == Number(Int(if product.value.daysValid != 0 then product.value.daysValid else DefaultDaysValid))
    ensures product.Some? ==> form["price"] == Number(Int(product.value.price))
  {
    var s := if product.Some? then product.value else Seed("", 0, 0, 0, 0, 0, "", "");
    map[
      "name" := Text(s.name),
      "price" := Number(Int(s.price)),
      "quantity" := Number(Int(s.quantity)),
      "discount" := Number(Int(s.discount)),
      "sold_count" := Number(Int(s.soldCount)),
      "days_valid" := Number(Int(if s.daysValid != 0 then s.daysValid else DefaultDaysValid)),
      "description" := Text(s.description),
      "frequently_asked_questions" := Text(s.faq)]
  }

  /** `handleInputChange`: only the named field changes; the five numeric
      fields store `Number(value)`, every other name the text itself. */
  function InputChange(form: Form, name: string, value: string): (r: Form)
    ensures name in r && r.Keys == form.Keys + {name}
    ensures forall k :: k in form && k != name ==> r[k] == form[k]
    ensures name in NumericFields ==> r[name] == Number(ToNumber(value))
    ensures name !in NumericFields ==> r[name] == Text(value)
  {
    form[name := if name in NumericFields then Number(ToNumber(value)) else Text(value)]
  }

  /** Changes keep the form well formed, and clearing a numeric field stores 0. */
  lemma InputChangeKeepsShape(form: Form, name: string, value: string)
    requires WellFormed(form)
    ensures WellFormed(InputChange(form, name, value))
    ensures name in NumericFields && AllSpace(value) ==> InputChange(form, name, value)[name] == Number(Int(0))
  {
  }

  /** The answer to the creation request. */
  datatype Answer<T> =
    | Failed(failure: Failure)
    | Body(success: bool, data: T, message: string)

  /** The props the form calls back, in order. */
  datatype Callback<T> = Saved(data: T) | Closed

  /** What `handleSubmit` leaves behind: whether the request was made, the
      `isUploading` flag, the callbacks made, and the error toast's text. */
  datatype Submission<T> = Submission(requested: bool, uploading: bool, callbacks: seq<Callback<T>>, error: Option<string>)

  const EditNotice: string := "Update API logic has not been implemented yet."
  const ImageMissing: string := "Please select an image file to upload."
  const UnknownError: string := "An unknown error occurred."

  /** The text of the authentication guard's `catch`. */
  function TokenProblem(slot: AuthSlot): (m: Option<string>)
    ensures m.None? <==> slot.Stored? && Truthy(slot.data.token)
    ensures m.Some? ==> m.value != ""
  {
    match slot
    case Absent => Some("User not authenticated.")
    case Unparseable(msg) => Some(if msg != "" then msg else "Please log in again.")
    case NullValue => Some(NullReadMessage)
    case Stored(d) => if Truthy(d.token) then None else Some("Token not found.")
  }

  /** `handleSubmit`. In edit mode nothing is sent. Otherwise the guards run in
      order: an image file, then a readable session with a truthy token. Only a
      body with `success` calls `onSave` with its data and then `onClose`; the
      uploading flag is down again on every path. */
  function Submit<T>(editing: bool, hasImage: bool, slot: AuthSlot, answer: Answer<T>): (r: Submission<T>)
    ensures !r.uploading
    ensures r.requested <==> !editing && hasImage && TokenProblem(slot).None?
    ensures editing ==> r.error == Some(EditNotice)
    ensures !editing && !hasImage ==> r.error == Some(ImageMissing)
    ensures !editing && hasImage && TokenProblem(slot).Some? ==> r.error == TokenProblem(slot)
    ensures r.callbacks != [] <==> r.requested && answer.Body? && answer.success
    ensures r.callbacks != [] ==> r.callbacks == [Saved(answer.data), Closed] && r.error.None?
    ensures r.requested && r.callbacks == [] ==> r.error.Some?
    ensures r.requested && answer.Failed? ==>
              r.error == Some(if answer.failure.Rejected? then ServerMessage(answer.failure.status, answer.failure.message)
                              else if answer.failure.message != "" then answer.failure.message
                              else UnknownError)
  {
    if editing then Submission(false, false, [], Some(EditNotice))
    else if !hasImage then Submission(false, false, [], Some(ImageMissing))
    else match TokenProblem(slot)
      case Some(m) => Submission(false, false, [], Some(m))
      case None =>
        match answer
        case Body(ok, data, m) =>
          if ok then Submission(true, false, [Saved(data), Closed], None)
          else Submission(true, false, [], Some(DescribeWithoutNetwork(Thrown(if m != "" then m else "Failed to create product."), UnknownError)))
        case Failed(e) => Submission(true, false, [], Some(DescribeWithoutNetwork(e, UnknownError)))
  }
}
