/**
 * The rendering of src/routes/composition/with.jsx: two `FormField`s whose
 * render functions build a labelled input and a `FormMessage`. The state and
 * handlers are those of module ContactForm.
 */
module WithComposition {
  import opened Wrappers
  import opened ContactForm

  /**
   * One rendered form item: the input's name and value, whether the input has
   * the red error border, and the text of its `FormMessage` paragraph (which
   * is always rendered, empty when the message is undefined).
   */
  datatype Item = Item(field: string, value: string, errorBorder: bool, message: Option<string>)

  /** `FormField`: calls `render` with its own `name` and wraps the result. */
  function FormField<R>(name: string, render: string -> R): (r: R)
    ensures r == render(name)
  {
    render(name)
  }

  /** The render function of the name field. */
  function NameItem(name: string, d: FormData, e: Errors): Item
  {
    Item(name, d.name, Truthy(e.name), e.name)
  }

  /** The render function of the email field as written: its border follows `errors.name`. */
  function EmailItem(name: string, d: FormData, e: Errors): Item
  {
    Item(name, d.email, Truthy(e.name), e.email)
  }

  /** The email field with its border driven by its own error, as the name field's is. */
  function EmailItemCorrected(name: string, d: FormData, e: Errors): Item
  {
    Item(name, d.email, Truthy(e.email), e.email)
  }

  /** The two form items of `WithComposition`, in document order. */
  function View(d: FormData, e: Errors): (r: seq<Item>)
    ensures |r| == 2
    ensures r[0].field == "name" && r[0].value == d.name
    ensures r[1].field == "email" && r[1].value == d.email
  {
    [FormField("name", n => NameItem(n, d, e)), FormField("email", n => EmailItem(n, d, e))]
  }

  /** The two form items with the corrected email field. */
  function ViewCorrected(d: FormData, e: Errors): seq<Item>
  {
    [FormField("name", n => NameItem(n, d, e)), FormField("email", n => EmailItemCorrected(n, d, e))]
  }

  /**
   * Each `FormField` hands its own name to its render function; both items
   * show their field's value and message, and BOTH borders follow the name error.
   */
  lemma ViewAsWritten(d: FormData, e: Errors)
    ensures |View(d, e)| == 2
    ensures View(d, e)[0].field == "name" && View(d, e)[1].field == "email"
    ensures View(d, e)[0].value == d.name && View(d, e)[1].value == d.email
    ensures View(d, e)[0].message == e.name && View(d, e)[1].message == e.email
    ensures View(d, e)[0].errorBorder == Truthy(e.name)
    ensures View(d, e)[1].errorBorder == Truthy(e.name)
  {
  }

  /**
   * As written, a submit with a name but no email shows "Email is required."
   * under an email input that keeps its normal border.
   */
  lemma EmailErrorWithoutBorder()
    ensures var d := FormData("Ada", "");
            var item := View(d, Validate(d))[1];
            item.message == Some(EmailRequired) && !item.errorBorder
  {
  }

  /** With the correction, after a submit every input is red exactly when its own field was left empty. */
  lemma CorrectedBorderFollowsOwnField(d: FormData)
    ensures |ViewCorrected(d, Validate(d))| == 2
    ensures ViewCorrected(d, Validate(d))[0].errorBorder <==> d.name == ""
    ensures ViewCorrected(d, Validate(d))[1].errorBorder <==> d.email == ""
    ensures forall i :: 0 <= i < 2 ==>
              ViewCorrected(d, Validate(d))[i].errorBorder == ViewCorrected(d, Validate(d))[i].message.Some?
  {
  }
}
