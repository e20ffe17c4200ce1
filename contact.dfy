/**
 * The contact-form endpoint (`POST /actions/send-email`): it checks that
 * every field is present, picks the recipient from the CMS with a fixed
 * fallback, builds the message and maps the outcome to a status. The CMS
 * read, the template file, the template render and the mail transport are
 * oracles.
 */
module ContactEmail {
  import opened Wrappers
  import opened Strings
  import opened Http

  /** The submitted form fields; `None` is a field `formData` does not hold. */
  datatype ContactForm = ContactForm(name: Option<string>, email: Option<string>,
                                     subject: Option<string>, message: Option<string>)

  /** The fields handed to the template once all are present. */
  datatype Submission = Submission(name: string, email: string, subject: string, message: string)

  /** The CMS `contact` singleton, as far as this endpoint reads it. */
  datatype ContactSingleton = ContactSingleton(formInfoEmail: Option<string>)

  /** The message handed to the mail transport. */
  datatype Mail = Mail(to: string, from: string, replyTo: string, subject: string, html: string)

  const FallbackRecipient: string := "class@contacts.livefireinstruction.com"
  const Sender: string := "LiveFire Instruction <class@contacts.livefireinstruction.com>"

  const MissingFieldsResponse: Response := Plain(400, MessageJson("Missing required fields"))
  const FailureResponse: Response := Plain(500, MessageJson("Failed to send email"))
  const SuccessResponse: Response := Plain(200, MessageJson("Success!"))

  /** `contact?.formInfoEmail || fallback`: never empty. */
  function Recipient(contact: Option<ContactSingleton>): (to: string)
    ensures to != ""
    ensures contact.Some? && Truthy(contact.value.formInfoEmail) ==> to == contact.value.formInfoEmail.value
    ensures !(contact.Some? && Truthy(contact.value.formInfoEmail)) ==> to == FallbackRecipient
  {
    if contact.Some? && Truthy(contact.value.formInfoEmail) then contact.value.formInfoEmail.value
    else FallbackRecipient
  }

  /** The template's fields from a form whose fields are all present. */
  function FormSubmission(form: ContactForm): (fields: Submission)
    requires form.name.Some? && form.email.Some? && form.subject.Some? && form.message.Some?
    ensures fields.email == form.email.value && fields.subject == form.subject.value
    ensures fields.name == form.name.value && fields.message == form.message.value
  {
    Submission(form.name.value, form.email.value, form.subject.value, form.message.value)
  }

  /** The endpoint's answer, and the message it handed to the transport, if it got that far. */
  datatype ContactRun = ContactRun(response: Response, attempted: Option<Mail>)

  /**
   * The endpoint. `read` is the CMS singleton read, `template` the template
   * file read, `render` the template engine and `send` whether the
   * transport delivered; a `Failure` or `false` is a thrown error.
   */
  function Post(form: ContactForm,
                read: Result<Option<ContactSingleton>, string>,
                template: Result<string, string>,
                render: (string, Submission) -> Result<string, string>,
                send: Mail -> bool): (run: ContactRun)
    ensures !Truthy(form.name) || !Truthy(form.email) || !Truthy(form.subject) || !Truthy(form.message) ==>
      run == ContactRun(MissingFieldsResponse, None)
    ensures run.response == MissingFieldsResponse <==>
      !Truthy(form.name) || !Truthy(form.email) || !Truthy(form.subject) || !Truthy(form.message)
    ensures run.response in {MissingFieldsResponse, FailureResponse, SuccessResponse}
    ensures (Truthy(form.name) && Truthy(form.email) && Truthy(form.subject) && Truthy(form.message)
             && run.response != SuccessResponse) ==> run.response == FailureResponse
    ensures run.response == SuccessResponse <==> run.attempted.Some? && send(run.attempted.value)
    ensures run.attempted.Some? ==>
      && read.Success?
      && run.attempted.value.to == Recipient(read.value)
      && run.attempted.value.from == Sender
      && run.attempted.value.replyTo == form.email.value
      && run.attempted.value.subject == form.subject.value
  {
    if !Truthy(form.name) || !Truthy(form.email) || !Truthy(form.subject) || !Truthy(form.message) then
      ContactRun(MissingFieldsResponse, None)
    else
      var fields := FormSubmission(form);
      match read
      case Failure(_) => ContactRun(FailureResponse, None)
      case Success(contact) =>
        match template
        case Failure(_) => ContactRun(FailureResponse, None)
        case Success(text) =>
          match render(text, fields)
          case Failure(_) => ContactRun(FailureResponse, None)
          case Success(html) =>
            var mail := Mail(Recipient(contact), Sender, fields.email, fields.subject, html);
            ContactRun(if send(mail) then SuccessResponse else FailureResponse, Some(mail))
  }

  /**
   * A form with a missing or empty field is answered without any reader,
   * template, render or send call: no oracle can change its answer.
   */
  lemma MissingFieldsCallNothing(form: ContactForm,
                                 read1: Result<Option<ContactSingleton>, string>, read2: Result<Option<ContactSingleton>, string>,
                                 template1: Result<string, string>, template2: Result<string, string>,
                                 render1: (string, Submission) -> Result<string, string>,
                                 render2: (string, Submission) -> Result<string, string>,
                                 send1: Mail -> bool, send2: Mail -> bool)
    requires !Truthy(form.name) || !Truthy(form.email) || !Truthy(form.subject) || !Truthy(form.message)
    ensures Post(form, read1, template1, render1, send1) == Post(form, read2, template2, render2, send2)
    ensures Post(form, read1, template1, render1, send1).response.status == 400
  {
  }

  /** A failure in any oracle step gives 500 "Failed to send email". */
  lemma OracleFailureIs500(form: ContactForm, read: Result<Option<ContactSingleton>, string>,
                           template: Result<string, string>,
                           render: (string, Submission) -> Result<string, string>, send: Mail -> bool)
    requires Truthy(form.name) && Truthy(form.email) && Truthy(form.subject) && Truthy(form.message)
    requires read.Failure? || template.Failure?
             || render(template.value, FormSubmission(form)).Failure?
    ensures Post(form, read, template, render, send) == ContactRun(FailureResponse, None)
  {
  }

  /**
   * When every step before it succeeds, the message goes out with the chosen
   * recipient and the rendered body, and a transport failure still gives 500.
   */
  lemma SendOutcomeDecides(form: ContactForm, contact: Option<ContactSingleton>, text: string, html: string,
                           render: (string, Submission) -> Result<string, string>, send: Mail -> bool)
    requires Truthy(form.name) && Truthy(form.email) && Truthy(form.subject) && Truthy(form.message)
    requires render(text, FormSubmission(form)) == Success(html)
    ensures var mail := Mail(Recipient(contact), Sender, form.email.value, form.subject.value, html);
      && Post(form, Success(contact), Success(text), render, send).attempted == Some(mail)
      && Post(form, Success(contact), Success(text), render, send).response
         == (if send(mail) then SuccessResponse else FailureResponse)
  {
  }
}
