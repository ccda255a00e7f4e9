/**
 * The contact page's form (client/src/pages/contact.tsx): its schema, the
 * submit handler that relays the message through the EmailJS service, the
 * mapping from a caught error to the text shown to the user, and the
 * "Send Another Message" reset.
 */
module ContactPage {
  import opened Wrappers
  import opened JsText
  import opened Toasts

  // ---------------------------------------------------------------------------
  // Schema (contactFormSchema)
  // ---------------------------------------------------------------------------

  datatype Field = Email | Organization | Message | Consent

  /** The form's values; after validation the same record is the submitted data. */
  datatype ContactValues = ContactValues(email: string, organization: string, message: string, consent: bool)

  /** The first failing rule's message per field, as the form shows beside each input. */
  type FieldErrors = map<Field, string>

  const DefaultValues := ContactValues("", "", "", false)

  const InvalidEmailText := "Invalid email address"
  const OrganizationRequiredText := "Organization is required"
  const MessageTooShortText := "Message must be at least 10 characters"
  const ConsentRequiredText := "You must consent to proceed"

  /** Minimum lengths, in UTF-16 code units, of organization and message. */
  const OrganizationMinLength := 1
  const MessageMinLength := 10

  /** Every field whose rule fails, each with its message. `isEmail` is the email grammar. */
  function SchemaErrors(v: ContactValues, isEmail: string -> bool): (errs: FieldErrors)
    ensures Email in errs <==> !isEmail(v.email)
    ensures Organization in errs <==> v.organization == ""
    ensures Message in errs <==> Utf16Length(v.message) < MessageMinLength
    ensures Consent in errs <==> !v.consent
    ensures Email in errs ==> errs[Email] == InvalidEmailText
    ensures Organization in errs ==> errs[Organization] == OrganizationRequiredText
    ensures Message in errs ==> errs[Message] == MessageTooShortText
    ensures Consent in errs ==> errs[Consent] == ConsentRequiredText
  {
    (if isEmail(v.email) then map[] else map[Email := InvalidEmailText])
    + (if Utf16Length(v.organization) >= OrganizationMinLength then map[] else map[Organization := OrganizationRequiredText])
    + (if Utf16Length(v.message) >= MessageMinLength then map[] else map[Message := MessageTooShortText])
    + (if v.consent then map[] else map[Consent := ConsentRequiredText])
  }

  /** Parsing with the schema: the values unchanged when every rule holds, else all field errors. */
  function Validate(v: ContactValues, isEmail: string -> bool): (r: Result<ContactValues, FieldErrors>)
    ensures r.Success? <==>
      isEmail(v.email) && |v.organization| >= 1 && Utf16Length(v.message) >= 10 && v.consent
    ensures r.Success? ==> r.value == v
    ensures r.Failure? ==> r.error == SchemaErrors(v, isEmail) && r.error != map[]
  {
    var errs := SchemaErrors(v, isEmail);
    if errs == map[] then Success(v)
    else
      assert errs.Keys != {} by {
        if isEmail(v.email) && v.organization != "" && Utf16Length(v.message) >= 10 {
          assert Consent in errs;
        }
      }
      Failure(errs)
  }

  /** The form's initial values fail on organization, message and consent, whatever the email grammar. */
  lemma DefaultsNeverValidate(isEmail: string -> bool)
    ensures Validate(DefaultValues, isEmail).Failure?
    ensures var errs := Validate(DefaultValues, isEmail).error;
      Organization in errs && Message in errs && Consent in errs
  {
  }

  /** A message of ten characters always passes its rule; a passing one has at least five characters. */
  lemma MessageRuleBounds(m: string)
    ensures |m| >= MessageMinLength ==> Utf16Length(m) >= MessageMinLength
    ensures Utf16Length(m) >= MessageMinLength ==> |m| >= 5
  {
  }

  /** The rule counts code units: five characters outside the BMP (ten code units) pass it. */
  lemma FiveAstralCharactersPassMessageRule()
    ensures Utf16Length("\U{1F600}\U{1F600}\U{1F600}\U{1F600}\U{1F600}") == MessageMinLength
  {
    var smile := "\U{1F600}";
    assert Utf16Length(smile) == 2;
    Utf16LengthConcat(smile, smile);
    Utf16LengthConcat(smile + smile, smile);
    Utf16LengthConcat(smile + smile + smile, smile);
    Utf16LengthConcat(smile + smile + smile + smile, smile);
    assert smile + smile + smile + smile + smile == "\U{1F600}\U{1F600}\U{1F600}\U{1F600}\U{1F600}";
  }

  // ---------------------------------------------------------------------------
  // Relay configuration and the notification parameters
  // ---------------------------------------------------------------------------

  /**
   * What the handler finds before sending: whether the EmailJS SDK exposes a
   * `send` function, and the three build-time variables (None when unset).
   */
  datatype RelayConfig = RelayConfig(
    sdkLoaded: bool,
    serviceId: Option<string>,
    templateId: Option<string>,
    publicKey: Option<string>)

  /** JavaScript truthiness of an optional string: set and non-empty. */
  predicate Truthy(o: Option<string>)
    ensures Truthy(o) <==> o != None && o != Some("")
  {
    o.Some? && o.value != ""
  }

  /** The SDK is loaded and all three identifiers are truthy. */
  predicate ReadyToSend(c: RelayConfig)
    ensures ReadyToSend(c) ==> c.sdkLoaded
    ensures ReadyToSend(c) ==>
      forall o :: o in [c.serviceId, c.templateId, c.publicKey] ==> o.Some? && |o.value| >= 1
    ensures c.serviceId == None || c.templateId == None || c.publicKey == None ==> !ReadyToSend(c)
  {
    c.sdkLoaded && Truthy(c.serviceId) && Truthy(c.templateId) && Truthy(c.publicKey)
  }

  const NotInitializedError := "EmailJS not properly initialized"
  const ConfigurationMissingError := "EmailJS configuration missing"
  const FormType := "Contact Form Submission"

  /** The parameter record handed to the relay's notification template. */
  function NotificationParams(data: ContactValues, timestamp: string): (p: map<string, string>)
    ensures p.Keys == {"user_email", "organization", "message", "form_type", "timestamp"}
    ensures p["user_email"] == data.email
    ensures p["organization"] == data.organization
    ensures p["message"] == data.message
    ensures p["form_type"] == FormType
    ensures p["timestamp"] == timestamp
  {
    map["user_email" := data.email, "organization" := data.organization, "message" := data.message,
        "form_type" := FormType, "timestamp" := timestamp]
  }

  /** One call of `emailjs.send(serviceId, templateId, params, publicKey)`. */
  datatype RelayCall = RelayCall(serviceId: string, templateId: string, params: map<string, string>, publicKey: string)

  /** The relay calls one submission makes: one when ready to send, none otherwise. */
  function RelayCallsMade(c: RelayConfig, data: ContactValues, timestamp: string): (calls: seq<RelayCall>)
    ensures |calls| == if ReadyToSend(c) then 1 else 0
    ensures forall k :: 0 <= k < |calls| ==>
      calls[k].params == NotificationParams(data, timestamp)
      && Some(calls[k].serviceId) == c.serviceId
      && Some(calls[k].templateId) == c.templateId
      && Some(calls[k].publicKey) == c.publicKey
  {
    if ReadyToSend(c) then
      [RelayCall(c.serviceId.value, c.templateId.value, NotificationParams(data, timestamp), c.publicKey.value)]
    else []
  }

  // ---------------------------------------------------------------------------
  // Errors and the message the user sees
  // ---------------------------------------------------------------------------

  /** A value caught by the handler: an `Error` with its message, or any other thrown value. */
  datatype Thrown = ErrorObject(message: string) | NonError

  /** How the relay call ends: it resolves, or it rejects with some value. */
  datatype RelayOutcome = Sent | Rejected(reason: Thrown)

  /** The value the handler's `catch` receives, or None when the send succeeded. */
  function CaughtError(c: RelayConfig, o: RelayOutcome): (e: Option<Thrown>)
    ensures e.None? <==> ReadyToSend(c) && o.Sent?
    ensures !c.sdkLoaded ==> e == Some(ErrorObject(NotInitializedError))
    ensures c.sdkLoaded && !ReadyToSend(c) ==> e == Some(ErrorObject(ConfigurationMissingError))
    ensures ReadyToSend(c) && o.Rejected? ==> e == Some(o.reason)
  {
    if !c.sdkLoaded then Some(ErrorObject(NotInitializedError))
    else if !ReadyToSend(c) then Some(ErrorObject(ConfigurationMissingError))
    else match o
      case Sent => None
      case Rejected(reason) => Some(reason)
  }

  const ConfigurationErrorText := "Email service configuration error. Please contact support."
  const NetworkErrorText := "Network error. Please check your connection and try again."
  const GenericErrorText := "Something went wrong. Please try again."

  /** Whether a caught value is an `Error` whose message includes `word`. */
  predicate Mentions(e: Thrown, word: string) {
    e.ErrorObject? && Contains(e.message, word)
  }

  /**
   * The description of the error toast. The checks run in a fixed order: a
   * mention of "EmailJS" wins over "network" and "fetch"; everything else,
   * including a thrown non-Error, gets the generic text.
   */
  function ErrorMessage(e: Thrown): (r: string)
    ensures r == ConfigurationErrorText || r == NetworkErrorText || r == GenericErrorText
    ensures r == ConfigurationErrorText <==> Mentions(e, "EmailJS")
    ensures r == NetworkErrorText <==>
      !Mentions(e, "EmailJS") && (Mentions(e, "network") || Mentions(e, "fetch"))
    ensures e.NonError? ==> r == GenericErrorText
  {
    if Mentions(e, "EmailJS") then ConfigurationErrorText
    else if Mentions(e, "network") || Mentions(e, "fetch") then NetworkErrorText
    else GenericErrorText
  }

  /**
   * A missing SDK or a missing identifier means no relay call and the
   * configuration message, whatever the relay would have done.
   */
  lemma MissingConfigurationShowsConfigurationMessage(c: RelayConfig, o: RelayOutcome, data: ContactValues, ts: string)
    requires !ReadyToSend(c)
    ensures RelayCallsMade(c, data, ts) == []
    ensures CaughtError(c, o).Some?
    ensures ErrorMessage(CaughtError(c, o).value) == ConfigurationErrorText
  {
    if !c.sdkLoaded {
      assert OccursAt(NotInitializedError, "EmailJS", 0);
    } else {
      assert OccursAt(ConfigurationMissingError, "EmailJS", 0);
    }
  }

  /** A browser's failed `fetch` ("Failed to fetch") is reported as a network error. */
  lemma FailedFetchShowsNetworkMessage()
    ensures ErrorMessage(ErrorObject("Failed to fetch")) == NetworkErrorText
  {
    var m := "Failed to fetch";
    assert forall i :: 0 <= i < |m| ==> m[i] != 'E';
    ContainsFirstChar(m, "EmailJS");
    var before := "Failed to ";
    assert |before| == 10 && m == before + "fetch";
    assert m[10..15] == (before + "fetch")[10..] == "fetch";
    assert OccursAt(m, "fetch", 10);
    assert !Mentions(ErrorObject(m), "EmailJS") && Mentions(ErrorObject(m), "fetch");
  }

  const SentToast := Toast("Message Sent!", "Thank you for your message! We'll get back to you within 24 hours.", Default)

  /** The destructive toast showing `description`. */
  function ErrorToast(description: string): (t: Toast)
    ensures t.variant == Destructive && t.description == description
  {
    Toast("Error", description, Destructive)
  }

  /** The toast a submission ends with: the confirmation, or the error mapped from what was caught. */
  function ToastFor(caught: Option<Thrown>): (t: Toast)
    ensures caught.None? ==> t == SentToast
    ensures caught.Some? ==> t.variant == Destructive && t.description == ErrorMessage(caught.value)
  {
    match caught
    case None => SentToast
    case Some(e) => ErrorToast(ErrorMessage(e))
  }

  // ---------------------------------------------------------------------------
  // The form component
  // ---------------------------------------------------------------------------

  /**
   * The contact form's state: whether the "Message Sent!" view shows, the
   * field values and field errors, and a log of the relay calls and toasts.
   */
  class ContactForm {
    var isSubmitted: bool
    var values: ContactValues
    var errors: FieldErrors
    var relayCalls: seq<RelayCall>
    var toasts: seq<Toast>

    /** The submitted view hides a form that has been reset. */
    ghost predicate Valid()
      reads this
    {
      isSubmitted ==> values == DefaultValues && errors == map[]
    }

    constructor ()
      ensures Valid()
      ensures !isSubmitted && values == DefaultValues && errors == map[]
      ensures relayCalls == [] && toasts == []
    {
      isSubmitted := false;
      values := DefaultValues;
      errors := map[];
      relayCalls := [];
      toasts := [];
    }

    /**
     * The submit handler, called with validated data. It checks the SDK and
     * the configuration, sends one notification, and on success shows the
     * confirmation and resets the form; on any failure it shows the mapped
     * error and leaves the form as it was.
     */
    method OnSubmit(data: ContactValues, config: RelayConfig, timestamp: string, outcome: RelayOutcome)
      requires Valid() && !isSubmitted
      modifies this
      ensures Valid()
      ensures relayCalls == old(relayCalls) + RelayCallsMade(config, data, timestamp)
      ensures var caught := CaughtError(config, outcome);
        && isSubmitted == caught.None?
        && values == (if caught.None? then DefaultValues else old(values))
        && errors == (if caught.None? then map[] else old(errors))
        && toasts == old(toasts) + [ToastFor(caught)]
    {
      var caught: Option<Thrown> := None;
      if !config.sdkLoaded {
        caught := Some(ErrorObject(NotInitializedError));
      } else if !Truthy(config.serviceId) || !Truthy(config.templateId) || !Truthy(config.publicKey) {
        caught := Some(ErrorObject(ConfigurationMissingError));
      } else {
        var params := NotificationParams(data, timestamp);
        relayCalls := relayCalls + [RelayCall(config.serviceId.value, config.templateId.value, params, config.publicKey.value)];
        if outcome.Rejected? {
          caught := Some(outcome.reason);
        }
      }
      if caught.None? {
        isSubmitted := true;
        toasts := toasts + [SentToast];
        values, errors := DefaultValues, map[];
      } else {
        var errorMessage := GenericErrorText;
        if caught.value.ErrorObject? {
          if Contains(caught.value.message, "EmailJS") {
            errorMessage := ConfigurationErrorText;
          } else if Contains(caught.value.message, "network") || Contains(caught.value.message, "fetch") {
            errorMessage := NetworkErrorText;
          }
        }
        toasts := toasts + [ErrorToast(errorMessage)];
      }
    }

    /**
     * Pressing "Send Message" with `entered` in the inputs: the schema runs
     * first; invalid values only set the field errors, valid ones clear them
     * and go to the submit handler.
     */
    method Submit(entered: ContactValues, isEmail: string -> bool, config: RelayConfig, timestamp: string, outcome: RelayOutcome)
      requires Valid() && !isSubmitted
      modifies this
      ensures Valid()
      ensures Validate(entered, isEmail).Failure? ==>
        && !isSubmitted && values == entered && errors == Validate(entered, isEmail).error
        && relayCalls == old(relayCalls) && toasts == old(toasts)
      ensures Validate(entered, isEmail).Success? ==>
        var caught := CaughtError(config, outcome);
        && relayCalls == old(relayCalls) + RelayCallsMade(config, entered, timestamp)
        && isSubmitted == caught.None?
        && values == (if caught.None? then DefaultValues else entered)
        && errors == map[]
        && toasts == old(toasts) + [ToastFor(caught)]
    {
      values := entered;
      var parsed := Validate(entered, isEmail);
      if parsed.Failure? {
        errors := parsed.error;
      } else {
        errors := map[];
        OnSubmit(parsed.value, config, timestamp, outcome);
      }
    }

    /** "Send Another Message", offered only by the submitted view. */
    method SendAnother()
      requires Valid() && isSubmitted
      modifies this`isSubmitted
      ensures Valid() && !isSubmitted
      ensures values == DefaultValues && errors == map[]
    {
      isSubmitted := false;
    }
  }
}
