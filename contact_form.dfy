/**
 * The contact-form state shared, handler for handler, by
 * src/routes/composition/with.jsx and src/routes/composition/without.jsx:
 * `formData` and `errors`, `handleChange` and `handleSubmit`.
 */
module ContactForm {
  import opened Wrappers

  /** The two inputs' `name` attributes, the only targets of `handleChange`. */
  datatype Field = Name | Email

  datatype FormData = FormData(name: string, email: string)

  /** The `errors` object: a key is either absent (None) or holds a message. */
  datatype Errors = Errors(name: Option<string>, email: Option<string>)

  const NameRequired := "Name is required."
  const EmailRequired := "Email is required."

  /** The initial and reset value of `formData`. */
  const EmptyForm := FormData("", "")

  /** The initial and cleared value of `errors`: `{}`. */
  const NoErrors := Errors(None, None)

  /** The value of a field of the form. */
  function Value(d: FormData, f: Field): string
  {
    match f
    case Name => d.name
    case Email => d.email
  }

  /** `{ ...prev, [name]: value }`: the named field takes `value`, the other keeps its value. */
  function WithField(d: FormData, f: Field, value: string): (r: FormData)
    ensures Value(r, f) == value
    ensures forall g :: g != f ==> Value(r, g) == Value(d, g)
  {
    match f
    case Name => d.(name := value)
    case Email => d.(email := value)
  }

  /** JavaScript truthiness of a possibly undefined string. */
  predicate Truthy(s: Option<string>)
  {
    s.Some? && s.value != ""
  }

  /** `Object.keys(errors).length`. */
  function KeyCount(e: Errors): (r: nat)
    ensures r <= 2
    ensures r == 0 <==> e == NoErrors
  {
    (if e.name.Some? then 1 else 0) + (if e.email.Some? then 1 else 0)
  }

  /**
   * The error map a submit builds: a field has its message exactly when it is
   * the empty string. A field of blanks is not empty.
   */
  function Validate(d: FormData): (r: Errors)
    ensures r.name.Some? <==> d.name == ""
    ensures r.email.Some? <==> d.email == ""
    ensures r.name.Some? ==> r.name.value == NameRequired
    ensures r.email.Some? ==> r.email.value == EmailRequired
  {
    Errors(if d.name == "" then Some(NameRequired) else None,
           if d.email == "" then Some(EmailRequired) else None)
  }

  /** A submit is accepted exactly when both fields are non-empty, and each error it reports is visible (truthy). */
  lemma ValidateAccepts(d: FormData)
    ensures KeyCount(Validate(d)) == 0 <==> d.name != "" && d.email != ""
    ensures Truthy(Validate(d).name) <==> d.name == ""
    ensures Truthy(Validate(d).email) <==> d.email == ""
  {
  }

  class ContactForm {
    var data: FormData
    var errors: Errors

    /** `useState({ name: "", email: "" })` and `useState({})`. */
    constructor ()
      ensures data == EmptyForm && errors == NoErrors
    {
      data := EmptyForm;
      errors := NoErrors;
    }

    /** `handleChange`: the input named `f` reports `value`; nothing else changes. */
    method HandleChange(f: Field, value: string)
      modifies this
      ensures data == WithField(old(data), f, value)
      ensures errors == old(errors)
    {
      data := WithField(data, f, value);
    }

    /**
     * `handleSubmit`: build `newErrors` one field at a time and store it; when
     * it has no key, the form is submitted, reset and its errors cleared.
     */
    method HandleSubmit() returns (submitted: bool)
      modifies this
      ensures submitted <==> old(data.name) != "" && old(data.email) != ""
      ensures submitted ==> data == EmptyForm && errors == NoErrors
      ensures !submitted ==> data == old(data) && errors == Validate(old(data))
    {
      var newErrors := NoErrors;
      if data.name == "" {
        newErrors := newErrors.(name := Some(NameRequired));
      }
      if data.email == "" {
        newErrors := newErrors.(email := Some(EmailRequired));
      }
      errors := newErrors;
      submitted := KeyCount(newErrors) == 0;
      if submitted {
        data := EmptyForm;
        errors := NoErrors;
      }
    }
  }

  /** A form filled in only partly reports the missing field and keeps what was typed. */
  method SubmitScenario()
  {
    var form := new ContactForm();
    form.HandleChange(Name, "Ada");
    var ok := form.HandleSubmit();
    assert !ok && form.data == FormData("Ada", "");
    assert form.errors == Errors(None, Some(EmailRequired));
    form.HandleChange(Email, " ");
    ok := form.HandleSubmit();
    assert ok && form.data == EmptyForm && form.errors == NoErrors;
  }
}
