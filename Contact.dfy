/**
 * The contact form: four controlled fields, pre-filled from the `subject`
 * and `message` query parameters, cleared on demand or after a successful
 * submission, and an `isSubmitting` flag that guards against a second
 * submission and disables the submit button. The POST's outcome is an input;
 * the query parameters are passed in as already parsed.
 */
module Contact {
  import opened Wrappers
  import opened JsStrings

  datatype FormValues = FormValues(name: string, email: string, subject: string, message: string)

  const EmptyForm := FormValues("", "", "", "")

  datatype Field = Name | Email | Subject | Message

  /** The value a field shows. */
  function Get(v: FormValues, f: Field): string {
    match f
    case Name => v.name
    case Email => v.email
    case Subject => v.subject
    case Message => v.message
  }

  /** One field's `onChange`: `{ ...prev, [field]: value }`. */
  function WithField(v: FormValues, f: Field, value: string): (r: FormValues)
    ensures Get(r, f) == value
    ensures forall g :: g != f ==> Get(r, g) == Get(v, g)
  {
    match f
    case Name => v.(name := value)
    case Email => v.(email := value)
    case Subject => v.(subject := value)
    case Message => v.(message := value)
  }

  /** `param || ''` */
  function OrEmpty(param: Option<string>): (r: string)
    ensures Truthy(param) ==> r == param.value
    ensures !Truthy(param) ==> r == ""
  {
    if Truthy(param) then param.value else ""
  }

  /**
   * The prefill effect: when either parameter is a non-empty string, subject
   * and message are both replaced (a missing one by ''); name and email are kept.
   */
  function Prefilled(v: FormValues, subject: Option<string>, message: Option<string>): (r: FormValues)
    ensures r.name == v.name && r.email == v.email
    ensures !Truthy(subject) && !Truthy(message) ==> r == v
    ensures Truthy(subject) || Truthy(message) ==> r.subject == OrEmpty(subject) && r.message == OrEmpty(message)
  {
    if Truthy(subject) || Truthy(message) then v.(subject := OrEmpty(subject), message := OrEmpty(message))
    else v
  }

  /** The form POST's outcome: an ok response, an error response, or a thrown error. */
  datatype Outcome = OkResponse | ErrorResponse | Threw

  class ContactForm {
    var values: FormValues
    var isSubmitting: bool
    /** The router location's query string ("" when there is none) and path. */
    var search: string
    var path: string

    constructor (path: string, search: string)
      ensures values == EmptyForm && !isSubmitting
      ensures this.path == path && this.search == search
    {
      values := EmptyForm;
      isSubmitting := false;
      this.path := path;
      this.search := search;
    }

    /** The submit button is disabled exactly while a submission is in flight. */
    predicate SubmitDisabled(): (disabled: bool)
      reads this
      ensures disabled <==> isSubmitting
    {
      isSubmitting
    }

    /** The prefill effect, run with the parsed `subject` and `message` parameters. */
    method Prefill(subject: Option<string>, message: Option<string>)
      modifies this
      ensures values == Prefilled(old(values), subject, message)
      ensures isSubmitting == old(isSubmitting) && path == old(path) && search == old(search)
    {
      if Truthy(subject) || Truthy(message) {
        values := values.(subject := OrEmpty(subject), message := OrEmpty(message));
      }
    }

    /** A field's `onChange`. */
    method OnChange(f: Field, value: string)
      modifies this
      ensures values == WithField(old(values), f, value)
      ensures isSubmitting == old(isSubmitting) && path == old(path) && search == old(search)
    {
      values := WithField(values, f, value);
    }

    /** `clearForm`: empty every field and, when there is a query string, replace the location with "/contact". */
    method ClearForm()
      modifies this
      ensures values == EmptyForm
      ensures old(search) != "" ==> path == "/contact" && search == ""
      ensures old(search) == "" ==> path == old(path) && search == ""
      ensures isSubmitting == old(isSubmitting)
    {
      values := EmptyForm;
      if search != "" {
        path := "/contact";
        search := "";
      }
    }

    /**
     * The synchronous start of `handleSubmit`: a submission while one is in
     * flight returns at once and changes nothing; otherwise it is marked in flight.
     */
    method BeginSubmit() returns (started: bool)
      modifies this
      ensures started <==> !old(SubmitDisabled())
      ensures isSubmitting
      ensures values == old(values) && path == old(path) && search == old(search)
    {
      if isSubmitting {
        return false;
      }
      isSubmitting := true;
      return true;
    }

    /** The end of a started submission: clear on an ok response only, and leave the in-flight state in every case. */
    method FinishSubmit(outcome: Outcome)
      requires isSubmitting
      modifies this
      ensures !isSubmitting
      ensures outcome == OkResponse ==> values == EmptyForm && (old(search) != "" ==> path == "/contact") && search == ""
      ensures outcome == OkResponse && old(search) == "" ==> path == old(path)
      ensures outcome != OkResponse ==> values == old(values) && path == old(path) && search == old(search)
    {
      if outcome == OkResponse {
        ClearForm();
      }
      isSubmitting := false;
    }
  }

  // ---------------------------------------------------------------- lemmas

  /** Prefilling twice with the same parameters is the same as prefilling once. */
  lemma PrefillIdempotent(v: FormValues, subject: Option<string>, message: Option<string>)
    ensures Prefilled(Prefilled(v, subject, message), subject, message) == Prefilled(v, subject, message)
  {
  }

  /** A link carrying only a subject empties the message field. */
  lemma SubjectOnlyClearsMessage(v: FormValues, subject: string)
    requires subject != ""
    ensures Prefilled(v, Some(subject), None) == FormValues(v.name, v.email, subject, "")
  {
  }

  /** An empty parameter counts as absent: `?subject=` on its own leaves the form as it is. */
  lemma EmptyParameterIgnored(v: FormValues)
    ensures Prefilled(v, Some(""), None) == v
    ensures Prefilled(v, Some(""), Some("")) == v
  {
  }

  /** Editing a field and then putting back its old value restores the form. */
  lemma OnChangeUndo(v: FormValues, f: Field, value: string)
    ensures WithField(WithField(v, f, value), f, Get(v, f)) == v
  {
  }

  /** Two edits of different fields commute. */
  lemma OnChangeCommutes(v: FormValues, f: Field, g: Field, a: string, b: string)
    requires f != g
    ensures WithField(WithField(v, f, a), g, b) == WithField(WithField(v, g, b), f, a)
  {
  }
}
