/** The "Contact" page: a four-field message form. */
module Contact {
  import opened Common
  import HtmlEmail

  datatype ContactData = ContactData(name: string, email: string, subject: string, message: string)

  const EMPTY_CONTACT := ContactData("", "", "", "")

  const SENT_TOAST := Toast("Message Sent!", "We'll get back to you within 24 hours.", false)

  /**
   * What the browser demands before it fires the form's submit event: all
   * four inputs are `required`, and the email input (`type="email"`) must
   * hold a valid e-mail address.
   */
  predicate Submittable(d: ContactData) {
    d.name != "" && d.email != "" && d.subject != "" && d.message != "" &&
    HtmlEmail.IsValidEmail(d.email)
  }

  datatype Field = Name | Email | Subject | Message

  function Get(d: ContactData, f: Field): string {
    match f
    case Name => d.name
    case Email => d.email
    case Subject => d.subject
    case Message => d.message
  }

  /** `{ ...prev, [name]: value }`: the named field takes the value, every other field is kept. */
  function WithField(d: ContactData, f: Field, value: string): (r: ContactData)
    ensures Get(r, f) == value
    ensures forall g :: g != f ==> Get(r, g) == Get(d, g)
  {
    match f
    case Name => d.(name := value)
    case Email => d.(email := value)
    case Subject => d.(subject := value)
    case Message => d.(message := value)
  }

  class ContactForm {
    var formData: ContactData

    constructor ()
      ensures formData == EMPTY_CONTACT
    {
      formData := EMPTY_CONTACT;
    }

    /** `handleInputChange`: only the field named by the input changes. */
    method HandleInputChange(field: Field, value: string)
      modifies this
      ensures formData == WithField(old(formData), field, value)
    {
      formData := WithField(formData, field, value);
    }

    /**
     * `handleSubmit`: a toast, and all four fields are cleared whatever they
     * held, so the form is back in its initial state.
     */
    method HandleSubmit() returns (t: Toast)
      modifies this
      ensures formData == EMPTY_CONTACT
      ensures t == SENT_TOAST
    {
      t := SENT_TOAST;
      formData := EMPTY_CONTACT;
    }

    /**
     * A press on "Send Message": the handler runs only when the browser's
     * checks pass; otherwise nothing happens.
     */
    method PressSend() returns (sent: bool, t: Option<Toast>)
      modifies this
      ensures sent <==> Submittable(old(formData))
      ensures sent ==> formData == EMPTY_CONTACT && t == Some(SENT_TOAST)
      ensures !sent ==> formData == old(formData) && t.None?
    {
      sent := Submittable(formData);
      t := None;
      if sent {
        var toast := HandleSubmit();
        t := Some(toast);
      }
    }
  }

  /**
   * Filling the form with `d` and pressing "Send Message" twice: the first
   * press sends exactly when `d` passes the browser's checks, and the second
   * is always refused, because a sent form is empty again and an unsent one
   * is unchanged.
   */
  method SecondSendIsRefused(d: ContactData) returns (first: bool, second: bool, after: ContactData)
    ensures first <==> Submittable(d)
    ensures !second
    ensures after == if first then EMPTY_CONTACT else d
  {
    var form := new ContactForm();
    form.HandleInputChange(Name, d.name);
    form.HandleInputChange(Email, d.email);
    form.HandleInputChange(Subject, d.subject);
    form.HandleInputChange(Message, d.message);
    assert form.formData == d;
    var t1, t2;
    first, t1 := form.PressSend();
    second, t2 := form.PressSend();
    after := form.formData;
  }
}
