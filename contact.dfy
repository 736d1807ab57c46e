/** The contact form: three controlled text fields and a submit handler that
    checks the mail service's configuration, makes one send attempt and clears
    the form only when the message went out. */
module Contact {

  datatype Option<T> = None | Some(value: T)

  /** The form's state record. */
  datatype FormData = FormData(name: string, email: string, message: string)

  const EmptyForm: FormData := FormData("", "", "")

  /** The `name` attribute of the input that fired a change event: the form has exactly these three. */
  datatype Field = Name | Email | Message

  function Get(form: FormData, field: Field): string {
    match field
    case Name => form.name
    case Email => form.email
    case Message => form.message
  }

  /** `{ ...prev, [name]: value }`: the named field takes the new value, the other two keep theirs. */
  function WithInput(form: FormData, field: Field, value: string): (r: FormData)
    ensures Get(r, field) == value
    ensures forall other :: other != field ==> Get(r, other) == Get(form, other)
  {
    match field
    case Name => form.(name := value)
    case Email => form.(email := value)
    case Message => form.(message := value)
  }

  /** The three build-time settings of the mail service; an unset one is `None`. */
  datatype Config = Config(serviceId: Option<string>, templateId: Option<string>, userId: Option<string>)

  /** The settings once all three are known to be usable. */
  datatype Credentials = Credentials(serviceId: string, templateId: string, userId: string)

  /** A setting counts as present when it is set and not the empty string (JavaScript truthiness). */
  predicate Present(setting: Option<string>) {
    setting.Some? && setting.value != ""
  }

  /** The configuration check that opens the submit handler. */
  function CheckConfig(config: Config): (r: Option<Credentials>)
    ensures r.Some? <==> Present(config.serviceId) && Present(config.templateId) && Present(config.userId)
    ensures r.Some? ==>
      r.value.serviceId != "" && r.value.templateId != "" && r.value.userId != "" &&
      Some(r.value.serviceId) == config.serviceId &&
      Some(r.value.templateId) == config.templateId &&
      Some(r.value.userId) == config.userId
  {
    match (config.serviceId, config.templateId, config.userId)
    case (Some(s), Some(t), Some(u)) =>
      if s == "" || t == "" || u == "" then None else Some(Credentials(s, t, u))
    case _ => None
  }

  /** What the mail service answered; the service itself is outside the model. */
  datatype SendOutcome = Delivered | Rejected

  /** One call to the mail service, with the form contents it carried. */
  datatype SendRequest = SendRequest(credentials: Credentials, form: FormData)

  /** The alerts the submit handler can raise. */
  datatype Notice = ConfigurationError | MessageSent | SendFailed

  /** The closing sentence of both failure alerts. */
  const RetryHint: string := " Please try again later."

  /** Both failure alerts invite another try; the success alert does not. */
  function AlertText(notice: Notice): (text: string)
    ensures |text| > |RetryHint|
    ensures text[|text| - |RetryHint|..] == RetryHint <==> notice != MessageSent
  {
    match notice
    case ConfigurationError =>
      var t := "Email service configuration error." + RetryHint;
      assert t[|t| - |RetryHint|..] == RetryHint;
      t
    case MessageSent =>
      var t := "Message sent successfully!";
      assert t[|t| - |RetryHint|..][0] == 's' != RetryHint[0];
      t
    case SendFailed =>
      var t := "Failed to send message." + RetryHint;
      assert t[|t| - |RetryHint|..] == RetryHint;
      t
  }

  /** The three alerts are three different texts, so the user can tell the two failures apart. */
  lemma AlertsDistinct()
    ensures AlertText(ConfigurationError) != AlertText(SendFailed)
    ensures AlertText(ConfigurationError) != AlertText(MessageSent)
    ensures AlertText(MessageSent) != AlertText(SendFailed)
  {
  }

  /** Typing into the three fields of an empty form yields exactly those three values. */
  lemma FillForm(name: string, email: string, message: string)
    ensures WithInput(WithInput(WithInput(EmptyForm, Name, name), Email, email), Message, message)
         == FormData(name, email, message)
  {
  }

  /** A later change of a field overrides an earlier one; changes of different fields commute. */
  lemma InputChanges(form: FormData, f: Field, g: Field, a: string, b: string)
    ensures WithInput(WithInput(form, f, a), f, b) == WithInput(form, f, b)
    ensures f != g ==> WithInput(WithInput(form, f, a), g, b) == WithInput(WithInput(form, g, b), f, a)
  {
  }

  /** The browser's `required` check: no field is left empty. */
  predicate Submittable(form: FormData) {
    form.name != "" && form.email != "" && form.message != ""
  }

  /** The form component: its field values and the requests it has sent so far. */
  class ContactForm {
    var formData: FormData
    var sent: seq<SendRequest>

    constructor ()
      ensures formData == EmptyForm && sent == []
    {
      formData := EmptyForm;
      sent := [];
    }

    /** The change handler shared by the three inputs. */
    method HandleInputChange(field: Field, value: string)
      modifies this
      ensures formData == WithInput(old(formData), field, value)
      ensures sent == old(sent)
    {
      formData := WithInput(formData, field, value);
    }

    /** The submit handler. `formAttached` says whether the form element is mounted and
        `outcome` is what the mail service answers if it is called. */
    method HandleSubmit(config: Config, formAttached: bool, outcome: SendOutcome) returns (alert: Option<Notice>)
      modifies this
      ensures CheckConfig(config).None? ==>
        alert == Some(ConfigurationError) && formData == old(formData) && sent == old(sent)
      ensures CheckConfig(config).Some? && !formAttached ==>
        alert == None && formData == old(formData) && sent == old(sent)
      ensures CheckConfig(config).Some? && formAttached ==>
        sent == old(sent) + [SendRequest(CheckConfig(config).value, old(formData))]
      ensures CheckConfig(config).Some? && formAttached && outcome == Delivered ==>
        alert == Some(MessageSent) && formData == EmptyForm
      ensures CheckConfig(config).Some? && formAttached && outcome == Rejected ==>
        alert == Some(SendFailed) && formData == old(formData)
    {
      var credentials := CheckConfig(config);
      if credentials.None? {
        return Some(ConfigurationError);
      }
      alert := None;
      if formAttached {
        sent := sent + [SendRequest(credentials.value, formData)];
        if outcome == Delivered {
          alert := Some(MessageSent);
          formData := EmptyForm;
        } else {
          alert := Some(SendFailed);
        }
      }
    }

    /** A submit as the browser delivers it. Every input is `required`, and the email input
        is `type="email"`, so the browser raises the submit event, and with it the handler,
        only when all three fields are non-empty and the email is well formed. Whether the
        email is well formed is the browser's verdict, given as `emailWellFormed`. */
    method SubmitForm(config: Config, formAttached: bool, emailWellFormed: bool, outcome: SendOutcome)
      returns (handled: bool, alert: Option<Notice>)
      modifies this
      ensures handled <==> Submittable(old(formData)) && emailWellFormed
      ensures !handled ==> alert == None && formData == old(formData) && sent == old(sent)
      ensures handled && CheckConfig(config).None? ==>
        alert == Some(ConfigurationError) && formData == old(formData) && sent == old(sent)
      ensures handled && CheckConfig(config).Some? && !formAttached ==>
        alert == None && formData == old(formData) && sent == old(sent)
      ensures handled && CheckConfig(config).Some? && formAttached ==>
        sent == old(sent) + [SendRequest(CheckConfig(config).value, old(formData))] &&
        (outcome == Delivered ==> alert == Some(MessageSent) && formData == EmptyForm) &&
        (outcome == Rejected ==> alert == Some(SendFailed) && formData == old(formData))
    {
      handled := Submittable(formData) && emailWellFormed;
      alert := None;
      if handled {
        alert := HandleSubmit(config, formAttached, outcome);
      }
    }
  }

  /** Filling in the form with an address the browser accepts and submitting it with a complete configuration sends one
      request carrying the typed values; a delivered message leaves the form empty,
      a rejected one leaves the values in place for another try. */
  method SubmitScenario(name: string, email: string, message: string, emailWellFormed: bool,
                        credentials: Credentials, outcome: SendOutcome)
    returns (form: FormData, requests: seq<SendRequest>, alert: Option<Notice>)
    requires name != "" && email != "" && message != "" && emailWellFormed
    requires credentials.serviceId != "" && credentials.templateId != "" && credentials.userId != ""
    ensures requests == [SendRequest(credentials, FormData(name, email, message))]
    ensures outcome == Delivered ==> form == EmptyForm && alert == Some(MessageSent)
    ensures outcome == Rejected ==> form == FormData(name, email, message) && alert == Some(SendFailed)
  {
    var c := new ContactForm();
    c.HandleInputChange(Name, name);
    c.HandleInputChange(Email, email);
    c.HandleInputChange(Message, message);
    FillForm(name, email, message);
    var config := Config(Some(credentials.serviceId), Some(credentials.templateId), Some(credentials.userId));
    var handled;
    handled, alert := c.SubmitForm(config, true, emailWellFormed, outcome);
    form, requests := c.formData, c.sent;
  }

  /** With all three settings missing, submitting a filled-in form whose address the
      browser accepts sends nothing and
      reports the configuration error. */
  method MissingConfigScenario(name: string, email: string, message: string, emailWellFormed: bool,
                               outcome: SendOutcome)
    returns (requests: seq<SendRequest>, alert: Option<Notice>)
    requires name != "" && email != "" && message != "" && emailWellFormed
    ensures requests == [] && alert == Some(ConfigurationError)
  {
    var c := new ContactForm();
    c.HandleInputChange(Name, name);
    c.HandleInputChange(Email, email);
    c.HandleInputChange(Message, message);
    FillForm(name, email, message);
    var handled;
    handled, alert := c.SubmitForm(Config(None, None, None), true, emailWellFormed, outcome);
    requests := c.sent;
  }

  /** Submitting the untouched, empty form is stopped by the browser: the handler never
      runs, so there is no alert and nothing is sent, whatever the configuration. */
  method EmptyFormScenario(config: Config, emailWellFormed: bool, outcome: SendOutcome)
    returns (handled: bool, requests: seq<SendRequest>, alert: Option<Notice>)
    ensures !handled && requests == [] && alert == None
  {
    var c := new ContactForm();
    handled, alert := c.SubmitForm(config, true, emailWellFormed, outcome);
    requests := c.sent;
  }
}
