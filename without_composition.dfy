/**
 * The rendering of src/routes/composition/without.jsx: two inline inputs,
 * each with a conditional border class and a conditional error paragraph.
 * The state and handlers are those of module ContactForm.
 */
module WithoutComposition {
  import opened Wrappers
  import opened ContactForm

  /**
   * One rendered field: the input's name and value, whether it has the red
   * error border, and the error paragraph if one is rendered.
   */
  datatype FieldView = FieldView(field: string, value: string, errorBorder: bool, paragraph: Option<string>)

  /** `{errors.x && <p>{errors.x}</p>}`: a paragraph only for a truthy error. */
  function Paragraph(err: Option<string>): (r: Option<string>)
    ensures r.Some? <==> Truthy(err)
    ensures r.Some? ==> r == err
  {
    if Truthy(err) then err else None
  }

  /** The two fields of `WithoutComposition`, in document order. */
  function View(d: FormData, e: Errors): (r: seq<FieldView>)
    ensures |r| == 2
    ensures r[0].field == "name" && r[0].value == d.name
    ensures r[1].field == "email" && r[1].value == d.email
    ensures r[0].errorBorder == Truthy(e.name) && r[1].errorBorder == Truthy(e.email)
    ensures forall i :: 0 <= i < 2 ==> (r[i].paragraph.Some? <==> r[i].errorBorder)
  {
    [FieldView("name", d.name, Truthy(e.name), Paragraph(e.name)),
     FieldView("email", d.email, Truthy(e.email), Paragraph(e.email))]
  }

  /**
   * After a rejected submit each input is red, and shows its own message,
   * exactly when its field was left empty.
   */
  lemma FeedbackAfterSubmit(d: FormData)
    ensures View(d, Validate(d))[0].errorBorder <==> d.name == ""
    ensures View(d, Validate(d))[1].errorBorder <==> d.email == ""
    ensures d.name == "" ==> View(d, Validate(d))[0].paragraph == Some(NameRequired)
    ensures d.email == "" ==> View(d, Validate(d))[1].paragraph == Some(EmailRequired)
  {
  }
}
