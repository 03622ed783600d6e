/**
 * The contact form (src/components/Contact.tsx): three controlled fields,
 * a submit that sends them through the e-mail service, and the status it
 * reports.
 *
 * The submit handler awaits the send, so it is two steps: `BeginSubmit`
 * runs up to the await and returns the request it sends, `Settle` runs what
 * follows once the send resolves (`true`) or rejects (`false`).
 */
module Contact {
  import opened Wrappers

  const ServiceId: string := "service_99k6d6s"
  const TemplateId: string := "template_4ofqoeb"
  const PublicKey: string := "t66oFDjJXB0IxMlWn"
  const Recipient: string := "nicolas.paniagua05f@gmail.com"

  /** The template parameters of a message. */
  datatype Params = Params(fromName: string, fromEmail: string, message: string, toEmail: string)

  /** One call of `emailjs.send`. */
  datatype EmailRequest = EmailRequest(service: string, template: string, params: Params, key: string)

  /** The request that sends the form's three fields to the fixed recipient. */
  function RequestFor(name: string, email: string, message: string): (r: EmailRequest)
    ensures r.params.fromName == name && r.params.fromEmail == email && r.params.message == message
    ensures r.params.toEmail == Recipient
    ensures r.service == ServiceId && r.template == TemplateId && r.key == PublicKey
  {
    EmailRequest(ServiceId, TemplateId, Params(name, email, message, Recipient), PublicKey)
  }

  /** Whatever the form holds, the message goes to the same recipient through the same template. */
  lemma SameDestination(n1: string, e1: string, m1: string, n2: string, e2: string, m2: string)
    ensures var r1 := RequestFor(n1, e1, m1);
      var r2 := RequestFor(n2, e2, m2);
      r1.params.toEmail == r2.params.toEmail && r1.service == r2.service
      && r1.template == r2.template && r1.key == r2.key
    ensures RequestFor(n1, e1, m1) == RequestFor(n2, e2, m2) <==> n1 == n2 && e1 == e2 && m1 == m2
  {
  }

  datatype Status = Success | Failure

  /** The `name` attribute of the control that changed. */
  datatype Field = NameField | EmailField | MessageField

  /** The form's state. */
  class Form {
    var sending: bool
    var status: Option<Status>
    var name: string
    var email: string
    var message: string

    constructor ()
      ensures !sending && status == None
      ensures name == "" && email == "" && message == ""
    {
      sending := false;
      status := None;
      name := "";
      email := "";
      message := "";
    }

    /** `handleChange`: only the named field takes the new value. */
    method Change(field: Field, value: string)
      modifies this
      ensures name == (if field == NameField then value else old(name))
      ensures email == (if field == EmailField then value else old(email))
      ensures message == (if field == MessageField then value else old(message))
      ensures sending == old(sending) && status == old(status)
    {
      match field
      case NameField => name := value;
      case EmailField => email := value;
      case MessageField => message := value;
    }

    /**
     * `handleSubmit` up to the await: mark the form as sending, clear the
     * status, and send the current fields. The submit button is disabled
     * while a send is in progress.
     */
    method BeginSubmit() returns (request: EmailRequest)
      requires !sending
      modifies this
      ensures sending && status == None
      ensures request == RequestFor(name, email, message)
      ensures name == old(name) && email == old(email) && message == old(message)
    {
      sending := true;
      status := None;
      request := RequestFor(name, email, message);
    }

    /**
     * `handleSubmit` after the await: on success the form is emptied, on
     * failure the fields are kept; either way sending ends.
     */
    method Settle(delivered: bool)
      modifies this
      ensures !sending
      ensures delivered ==> status == Some(Success) && name == "" && email == "" && message == ""
      ensures !delivered ==>
        status == Some(Failure) && name == old(name) && email == old(email) && message == old(message)
    {
      if delivered {
        status := Some(Success);
        name := "";
        email := "";
        message := "";
      } else {
        status := Some(Failure);
      }
      sending := false;
    }
  }
}
