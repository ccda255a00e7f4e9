/**
 * The "download the framework" form (client/src/components/sections/lead-magnet.tsx):
 * its schema, the FormData body it posts to Formspree, and the submit handler
 * that, only on an ok response, marks the form submitted and starts the PDF download.
 */
module LeadMagnet {
  import opened Wrappers
  import opened JsText
  import opened Toasts

  // ---------------------------------------------------------------------------
  // Schema (leadFormSchema)
  // ---------------------------------------------------------------------------

  datatype Field = Email | Organization | GdprConsent

  /** The form's values; after validation the same record is the submitted data. */
  datatype LeadValues = LeadValues(email: string, organization: string, gdprConsent: bool)

  type FieldErrors = map<Field, string>

  const DefaultValues := LeadValues("", "", false)

  const InvalidEmailText := "Invalid email address"
  const OrganizationRequiredText := "Organization name is required"
  const ConsentRequiredText := "You must consent to proceed"

  /** Minimum length of organization, in UTF-16 code units. */
  const OrganizationMinLength := 1

  /** Every field whose rule fails, each with its message. `isEmail` is the email grammar. */
  function SchemaErrors(v: LeadValues, isEmail: string -> bool): (errs: FieldErrors)
    ensures Email in errs <==> !isEmail(v.email)
    ensures Organization in errs <==> v.organization == ""
    ensures GdprConsent in errs <==> !v.gdprConsent
    ensures Email in errs ==> errs[Email] == InvalidEmailText
    ensures Organization in errs ==> errs[Organization] == OrganizationRequiredText
    ensures GdprConsent in errs ==> errs[GdprConsent] == ConsentRequiredText
  {
    (if isEmail(v.email) then map[] else map[Email := InvalidEmailText])
    + (if Utf16Length(v.organization) >= OrganizationMinLength then map[] else map[Organization := OrganizationRequiredText])
    + (if v.gdprConsent then map[] else map[GdprConsent := ConsentRequiredText])
  }

  /** Parsing with the schema: the values unchanged when every rule holds, else all field errors. */
  function Validate(v: LeadValues, isEmail: string -> bool): (r: Result<LeadValues, FieldErrors>)
    ensures r.Success? <==> isEmail(v.email) && |v.organization| >= 1 && v.gdprConsent
    ensures r.Success? ==> r.value == v
    ensures r.Failure? ==> r.error == SchemaErrors(v, isEmail) && r.error != map[]
  {
    var errs := SchemaErrors(v, isEmail);
    if errs == map[] then Success(v)
    else
      assert errs.Keys != {} by {
        if isEmail(v.email) && v.organization != "" {
          assert GdprConsent in errs;
        }
      }
      Failure(errs)
  }

  /** The form's initial values fail on organization and consent, whatever the email grammar. */
  lemma DefaultsNeverValidate(isEmail: string -> bool)
    ensures Validate(DefaultValues, isEmail).Failure?
    ensures var errs := Validate(DefaultValues, isEmail).error;
      Organization in errs && GdprConsent in errs
  {
  }

  // ---------------------------------------------------------------------------
  // The multipart body
  // ---------------------------------------------------------------------------

  /** A FormData entry: a name and a string value. */
  type Entry = (string, string)

  /** A browser FormData object: an ordered list of entries, extended in place by `append`. */
  class FormData {
    var entries: seq<Entry>

    constructor ()
      ensures entries == []
    {
      entries := [];
    }

    /** `append(name, value)`: adds an entry at the end, keeping earlier ones with the same name. */
    method Append(name: string, value: string)
      modifies this
      ensures entries == old(entries) + [(name, value)]
    {
      entries := entries + [(name, value)];
    }
  }

  /** `FormData.get(name)`: the value of the first entry called `name`, if any. */
  function Get(entries: seq<Entry>, name: string): (r: Option<string>)
    ensures r.None? <==> forall k :: 0 <= k < |entries| ==> entries[k].0 != name
    ensures r.Some? ==> exists k :: (0 <= k < |entries| && entries[k] == (name, r.value)
                                     && forall j :: 0 <= j < k ==> entries[j].0 != name)
  {
    if entries == [] then None
    else if entries[0].0 == name then Some(entries[0].1)
    else
      var rest := Get(entries[1..], name);
      assert forall k :: 0 < k < |entries| ==> entries[k] == entries[1..][k - 1];
      assert rest.Some? ==> exists k :: (0 < k < |entries| && entries[k] == (name, rest.value)
                                         && forall j :: 0 <= j < k ==> entries[j].0 != name) by {
        if rest.Some? {
          var k :| 0 <= k < |entries[1..]| && entries[1..][k] == (name, rest.value)
            && forall j :: 0 <= j < k ==> entries[1..][j].0 != name;
          assert forall j :: 0 < j < k + 1 ==> entries[j] == entries[1..][j - 1];
          assert entries[k + 1] == (name, rest.value);
        }
      }
      rest
  }

  /** The names of the entries, in order. */
  function Names(entries: seq<Entry>): (names: seq<string>)
    ensures |names| == |entries|
    ensures forall k :: 0 <= k < |entries| ==> names[k] == entries[k].0
  {
    seq(|entries|, k requires 0 <= k < |entries| => entries[k].0)
  }

  /** The entries the handler appends, in order. */
  function EncodeLead(data: LeadValues): (body: seq<Entry>)
    ensures Names(body) == ["email", "organization", "gdprConsent"]
    ensures forall k :: 0 <= k < |body| ==> Get(body, body[k].0) == Some(body[k].1)
  {
    [("email", data.email), ("organization", data.organization), ("gdprConsent", BoolToString(data.gdprConsent))]
  }

  /** The body has exactly the three keys, and reading each back gives the submitted value. */
  lemma EncodeLeadRoundTrip(data: LeadValues)
    ensures Names(EncodeLead(data)) == ["email", "organization", "gdprConsent"]
    ensures Get(EncodeLead(data), "email") == Some(data.email)
    ensures Get(EncodeLead(data), "organization") == Some(data.organization)
    ensures Get(EncodeLead(data), "gdprConsent") == Some(if data.gdprConsent then "true" else "false")
  {
    var body := EncodeLead(data);
    assert body[1..] == [("organization", data.organization), ("gdprConsent", BoolToString(data.gdprConsent))];
    assert body[1..][1..] == [("gdprConsent", BoolToString(data.gdprConsent))];
    assert Get(body[1..][1..], "gdprConsent") == Some(BoolToString(data.gdprConsent));
  }

  /** For validated data the consent entry is the string "true". */
  lemma ValidatedConsentIsTrue(v: LeadValues, isEmail: string -> bool)
    requires Validate(v, isEmail).Success?
    ensures Get(EncodeLead(Validate(v, isEmail).value), "gdprConsent") == Some("true")
  {
    EncodeLeadRoundTrip(v);
  }

  // ---------------------------------------------------------------------------
  // The request, the response and the download
  // ---------------------------------------------------------------------------

  const FormspreeEndpoint := "https://formspree.io/f/mvgoywev"
  const AcceptJson: seq<Entry> := [("Accept", "application/json")]

  /** One `fetch` call: URL, method, body entries and headers. */
  datatype Request = Request(url: string, httpMethod: string, body: seq<Entry>, headers: seq<Entry>)

  /** How the `fetch` ends: a response with its status, or a rejection (network failure). */
  datatype FetchOutcome = Responded(status: int) | NetworkFailure

  /** `response.ok`: there is a response and its status is in 200-299. */
  predicate ResponseOk(o: FetchOutcome)
    ensures ResponseOk(o) <==> o.Responded? && o.status / 100 == 2
  {
    o.Responded? && 200 <= o.status <= 299
  }

  /** A download started by clicking a link: the file's path and the name to save it under. */
  datatype Download = Download(href: string, filename: string)

  const FrameworkDownload := Download("/CDFI-SPF.pdf", "CDFI-Security-Privacy-Framework.pdf")

  const SuccessToast := Toast("Success!", "Thank you! We'll email you the download link shortly.", Default)
  const FailureToast := Toast("Error", "Something went wrong. Please try again.", Destructive)

  // ---------------------------------------------------------------------------
  // The form component
  // ---------------------------------------------------------------------------

  /**
   * The lead form's state: whether the "Download Sent!" view shows, the field
   * values and errors, and a log of the requests made, downloads started and
   * toasts shown. The submitted view renders no control, so no method can run
   * once `isSubmitted` holds.
   */
  class LeadForm {
    var isSubmitted: bool
    var values: LeadValues
    var errors: FieldErrors
    var requests: seq<Request>
    var downloads: seq<Download>
    var toasts: seq<Toast>

    /** The download happened exactly once iff the form is submitted, and then it has been reset. */
    ghost predicate Valid()
      reads this
    {
      && downloads == (if isSubmitted then [FrameworkDownload] else [])
      && (isSubmitted ==> values == DefaultValues && errors == map[])
    }

    constructor ()
      ensures Valid()
      ensures !isSubmitted && values == DefaultValues && errors == map[]
      ensures requests == [] && downloads == [] && toasts == []
    {
      isSubmitted := false;
      values := DefaultValues;
      errors := map[];
      requests := [];
      downloads := [];
      toasts := [];
    }

    /**
     * The submit handler, called with validated data: one POST of the three
     * entries, then success (submitted, toast, reset, one download) only when
     * the response is ok, and the error toast otherwise.
     */
    method OnSubmit(data: LeadValues, response: FetchOutcome)
      requires Valid() && !isSubmitted
      modifies this
      ensures Valid()
      ensures requests == old(requests) + [Request(FormspreeEndpoint, "POST", EncodeLead(data), AcceptJson)]
      ensures isSubmitted == ResponseOk(response)
      ensures downloads == old(downloads) + (if ResponseOk(response) then [FrameworkDownload] else [])
      ensures values == (if ResponseOk(response) then DefaultValues else old(values))
      ensures errors == (if ResponseOk(response) then map[] else old(errors))
      ensures toasts == old(toasts) + [if ResponseOk(response) then SuccessToast else FailureToast]
    {
      var formData := new FormData();
      formData.Append("email", data.email);
      formData.Append("organization", data.organization);
      formData.Append("gdprConsent", BoolToString(data.gdprConsent));
      assert formData.entries == EncodeLead(data);
      requests := requests + [Request(FormspreeEndpoint, "POST", formData.entries, AcceptJson)];
      if response.Responded? && 200 <= response.status <= 299 {
        isSubmitted := true;
        toasts := toasts + [SuccessToast];
        values, errors := DefaultValues, map[];
        downloads := downloads + [FrameworkDownload];
      } else {
        toasts := toasts + [FailureToast];
      }
    }

    /**
     * Pressing "Download Free Framework" with `entered` in the inputs: the
     * schema runs first; invalid values only set the field errors, valid ones
     * clear them and go to the submit handler.
     */
    method Submit(entered: LeadValues, isEmail: string -> bool, response: FetchOutcome)
      requires Valid() && !isSubmitted
      modifies this
      ensures Valid()
      ensures Validate(entered, isEmail).Failure? ==>
        && !isSubmitted && values == entered && errors == Validate(entered, isEmail).error
        && requests == old(requests) && downloads == old(downloads) && toasts == old(toasts)
      ensures Validate(entered, isEmail).Success? ==>
        && requests == old(requests) + [Request(FormspreeEndpoint, "POST", EncodeLead(entered), AcceptJson)]
        && isSubmitted == ResponseOk(response)
        && downloads == (if ResponseOk(response) then [FrameworkDownload] else [])
        && values == (if ResponseOk(response) then DefaultValues else entered)
        && errors == map[]
        && toasts == old(toasts) + [if ResponseOk(response) then SuccessToast else FailureToast]
    {
      values := entered;
      var parsed := Validate(entered, isEmail);
      if parsed.Failure? {
        errors := parsed.error;
      } else {
        errors := map[];
        OnSubmit(parsed.value, response);
      }
    }
  }
}
