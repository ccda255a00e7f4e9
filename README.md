# ZenPrivata website: form gateways and navigation, in Dafny

This project models the three pieces of logic in the ZenPrivata marketing site's front end.

- **Contact form** (`client/src/pages/contact.tsx`). It checks the values against its schema. It then checks that the EmailJS SDK is loaded and that the service id, template id and public key are set. It sends one notification through EmailJS. On success it shows the "Message Sent!" view and resets the form. On any failure it maps the caught error to one of three messages and shows it in a destructive toast. The form keeps its values. "Send Another Message" goes back to the form.
- **Lead form** (`client/src/components/sections/lead-magnet.tsx`). It checks the values against its schema and builds a FormData body of three entries. It makes one POST to Formspree. Only an ok response marks the form submitted, resets it and starts exactly one download of the framework PDF. Any other outcome shows the error toast. The "Download Sent!" view has no control, so the submitted state is final.
- **Navigation bar** (`client/src/components/layout/navigation.tsx`). It has five links. The link for `/` is highlighted only at `/`; any other link is highlighted when the location starts with its path. It also has a mobile menu that starts closed, is flipped by its button and is closed by any of its five route links.

Modules: `Wrappers` (Option, Result) and `JsText` (JavaScript's `length` in UTF-16 code units, `startsWith`, `includes`, `Boolean.toString`). `Toasts` holds the toast record. `ContactPage`, `LeadMagnet` and `Navigation` each model one source file. Each form is a class. Its fields are the state the component keeps (`isSubmitted`, the field values, the field errors). It also keeps logs of what it hands to the outside world: relay calls or requests, downloads and toasts. Each form class has a `Valid()` invariant:
- contact: a submitted form has been reset;
- lead: exactly one download has happened if the form is submitted, and none otherwise.

Things the model takes as parameters:
- The email grammar of zod's `.email()` is `isEmail: string -> bool`.
- The EmailJS SDK check and the three build-time variables are a `RelayConfig` value.
- The timestamp string is a parameter.
- How `emailjs.send` ends is a `RelayOutcome`: it resolves, or it rejects with an `Error` and its message, or with another value.
- How `fetch` ends is a `FetchOutcome`: a status code, or a network failure.

The model follows what the code does, including what it does not do:
- No form detects the hosting environment.
- Neither form talks to a first-party `/api/leads` or `/api/contact` endpoint.
- The lead form posts once to Formspree. It does not dispatch two relay messages.
- A failed lead submission gets no fallback success and no download (lead-magnet.tsx:64-73).
- The organization rule is `min(1)` on the raw string, with no trimming.
- A failed contact submission keeps the typed values.

## Model

| member | source | states |
|---|---|---|
| JsText.Utf16Length | client/src/pages/contact.tsx:18-19 | The length zod's `min` checks counts UTF-16 code units. It lies between the number of characters and twice that, and equals the character count exactly when no character is outside the BMP. |
| JsText.Utf16LengthConcat | client/src/pages/contact.tsx:18-19 | The UTF-16 length of a concatenation is the sum of the lengths of its parts. |
| JsText.StartsWith | client/src/components/layout/navigation.tsx:12 | `startsWith(prefix)` holds exactly when `prefix` occurs at offset 0. Then every character of `prefix` matches the string at the same index. |
| JsText.Contains | client/src/pages/contact.tsx:97-99 | `includes(sub)` holds when `sub` occurs at some offset. A prefix is always included, and an included string is never longer than the string it is in. |
| JsText.ContainsFirstChar | client/src/pages/contact.tsx:97-99 | If `includes(sub)` holds for a non-empty `sub`, then `sub[0]` occurs in the string. |
| JsText.BoolToString | client/src/components/sections/lead-magnet.tsx:39 | `toString` of a boolean is "true" exactly for true and "false" exactly for false. |
| ContactPage.SchemaErrors | client/src/pages/contact.tsx:16-21 | Each field has an error exactly when its own rule fails, and the error carries that rule's message: the email fails the grammar, the organization is empty, the message is under 10 code units, consent is not true. All failing fields are reported together. |
| ContactPage.Validate | client/src/pages/contact.tsx:16-21 | Validation passes exactly when the email is accepted, the organization is non-empty, the message has at least 10 code units and consent is true. On success the data is the entered values unchanged; on failure the error map is non-empty and lists every failing field. |
| ContactPage.DefaultsNeverValidate | client/src/pages/contact.tsx:29-37 | The initial values (empty strings, consent false) never validate, whatever the email grammar. The organization, message and consent errors are always present. |
| ContactPage.MessageRuleBounds | client/src/pages/contact.tsx:19 | Ten characters always satisfy the message rule. A message that satisfies it has at least five characters. |
| ContactPage.FiveAstralCharactersPassMessageRule | client/src/pages/contact.tsx:19 | Five characters outside the BMP make ten code units, so they satisfy the 10-character rule. The proof applies the concatenation lemma. |
| ContactPage.Truthy | client/src/pages/contact.tsx:57 | An identifier passes the `!x` test exactly when it is set and not the empty string. |
| ContactPage.ReadyToSend | client/src/pages/contact.tsx:42-59 | Sending goes ahead only when the SDK is loaded and all three identifiers are set and non-empty. Any unset identifier blocks it. |
| ContactPage.NotificationParams | client/src/pages/contact.tsx:62-68 | The relay parameters have exactly the keys user_email, organization, message, form_type and timestamp. The three form values are copied unchanged and form_type is "Contact Form Submission". |
| ContactPage.RelayCallsMade | client/src/pages/contact.tsx:42-77 | One relay call is made when the SDK is loaded and all three identifiers are truthy, and none otherwise. The call carries the configured service id, template id and public key, and the notification parameters. |
| ContactPage.CaughtError | client/src/pages/contact.tsx:40-90 | Nothing is caught exactly when the configuration is complete and the send resolves. A missing SDK throws "EmailJS not properly initialized" and a missing identifier throws "EmailJS configuration missing", in that order. A rejected send passes on its own reason. |
| ContactPage.ErrorMessage | client/src/pages/contact.tsx:94-102 | The mapping is total onto the three texts. The configuration text is shown exactly when the error is an Error whose message includes "EmailJS". The network text is shown exactly when it does not, and the message includes "network" or "fetch". A non-Error value always gets the generic text. |
| ContactPage.MissingConfigurationShowsConfigurationMessage | client/src/pages/contact.tsx:42-98 | With the SDK or any identifier missing, no relay call is made, an error is caught, and the configuration message is shown, whatever the relay would have done. |
| ContactPage.FailedFetchShowsNetworkMessage | client/src/pages/contact.tsx:96-100 | An Error reading "Failed to fetch" is shown as the network error. |
| ContactPage.ErrorToast | client/src/pages/contact.tsx:104-108 | The error toast is destructive and shows the mapped message. |
| ContactPage.ToastFor | client/src/pages/contact.tsx:84-108 | A successful send shows the "Message Sent!" toast. A caught error shows a destructive toast with the mapped message. |
| ContactPage.ContactForm.constructor | client/src/pages/contact.tsx:27-37 | The form starts not submitted, at its default values, with no errors and nothing sent. |
| ContactPage.ContactForm.OnSubmit | client/src/pages/contact.tsx:39-110 | The relay log grows by the calls made. On success, isSubmitted becomes true, the values go back to the defaults and the success toast is shown. On any failure, isSubmitted stays false, values and errors are unchanged, and one destructive toast with the mapped message is shown. |
| ContactPage.ContactForm.Submit | client/src/pages/contact.tsx:153 | Invalid values only set the field errors: nothing is sent and no toast is shown. Valid values clear the errors and run the submit handler with exactly those values. |
| ContactPage.ContactForm.SendAnother | client/src/pages/contact.tsx:127 | From the submitted view, "Send Another Message" makes isSubmitted false. The form is then back at its default values with no field errors, because success reset it. |
| LeadMagnet.SchemaErrors | client/src/components/sections/lead-magnet.tsx:13-17 | Each field has an error exactly when its own rule fails, and the error carries that rule's message. All failing fields are reported together. |
| LeadMagnet.Validate | client/src/components/sections/lead-magnet.tsx:13-17 | Validation passes exactly when the email is accepted, the organization is non-empty and gdprConsent is true. On success the data is the entered values unchanged; on failure the error map is non-empty. |
| LeadMagnet.DefaultsNeverValidate | client/src/components/sections/lead-magnet.tsx:25-32 | The initial values never validate. The organization and consent errors are always present. |
| LeadMagnet.FormData.constructor | client/src/components/sections/lead-magnet.tsx:36 | A new FormData has no entries. |
| LeadMagnet.FormData.Append | client/src/components/sections/lead-magnet.tsx:37-39 | `append` adds one entry at the end and keeps every earlier one. |
| LeadMagnet.EncodeLead | client/src/components/sections/lead-magnet.tsx:36-39 | The body's entry names are email, organization and gdprConsent, in that order. Reading any entry's name back gives that entry's value. |
| LeadMagnet.ResponseOk | client/src/components/sections/lead-magnet.tsx:49 | `response.ok` holds exactly when there is a response and its status is in the 2xx class. |
| LeadMagnet.EncodeLeadRoundTrip | client/src/components/sections/lead-magnet.tsx:36-39 | The body's entry names are exactly email, organization and gdprConsent, in that order. Reading each name back gives the submitted email, the organization and the consent as "true" or "false". |
| LeadMagnet.ValidatedConsentIsTrue | client/src/components/sections/lead-magnet.tsx:13-39 | For validated data, the gdprConsent entry is the string "true". |
| LeadMagnet.LeadForm.constructor | client/src/components/sections/lead-magnet.tsx:23-32 | The form starts not submitted, at its default values, with nothing requested, downloaded or shown. |
| LeadMagnet.LeadForm.OnSubmit | client/src/components/sections/lead-magnet.tsx:34-74 | Exactly one POST of the encoded body with the JSON Accept header goes to the fixed Formspree endpoint. On an ok response (status 200-299): submitted, success toast, form reset, and exactly one download of /CDFI-SPF.pdf as CDFI-Security-Privacy-Framework.pdf. On a non-ok response or a network failure: not submitted, no download, the generic error toast. |
| LeadMagnet.LeadForm.Submit | client/src/components/sections/lead-magnet.tsx:125 | Invalid values only set the field errors: no request, download or toast. Valid values clear the errors and run the submit handler with exactly those values, so the form is downloaded once and submitted exactly when the response is ok. |
| Navigation.NavItemsShape | client/src/components/layout/navigation.tsx:16-22 | There are five items with distinct paths starting with "/", captioned Home, Product, Services, Team, Contact in that order. |
| Navigation.IsActive | client/src/components/layout/navigation.tsx:10-14 | "/" is active exactly when the location is "/". Any other path is active exactly when the location starts with it. |
| Navigation.ActiveItems | client/src/components/layout/navigation.tsx:46-58 | An index is highlighted exactly when it is a nav item whose path is active at the location. |
| Navigation.ActiveIsUnique | client/src/components/layout/navigation.tsx:10-22 | Two nav items active at the same location are the same item. |
| Navigation.AtMostOneActive | client/src/components/layout/navigation.tsx:10-22 | At any location at most one of the five links is highlighted. |
| Navigation.ExactlyTheVisitedItemIsActive | client/src/components/layout/navigation.tsx:10-22 | At an item's own path, or below a non-root item's path, exactly that item is highlighted. |
| Navigation.PrefixRuleMatchesLongerRoutes | client/src/components/layout/navigation.tsx:12 | The prefix rule also highlights Product at "/productivity" and Team at "/teamwork". |
| Navigation.NavigationBar.constructor | client/src/components/layout/navigation.tsx:7-8 | The mobile menu starts closed. |
| Navigation.NavigationBar.Highlighted | client/src/components/layout/navigation.tsx:10-14 | The highlighted set reads only the location (no other state) and has at most one element. |
| Navigation.NavigationBar.ToggleMobileMenu | client/src/components/layout/navigation.tsx:77 | The menu button flips the menu and changes nothing else. |
| Navigation.NavigationBar.ClickMobileLink | client/src/components/layout/navigation.tsx:86-93 | A mobile link, shown only while the menu is open, closes the menu and goes to its path. That link is then the only one highlighted. |
| Navigation.NavigationBar.ClickDesktopLink | client/src/components/layout/navigation.tsx:46-49 | A desktop link goes to its path and leaves the menu alone. That link is then the only one highlighted. |
| Navigation.NavigationBar.ClickLogo | client/src/components/layout/navigation.tsx:29 | The logo goes to "/" and leaves the menu alone. Home is then the only item highlighted. |

## Left out

- Rendering, CSS classes, images and copy of all pages (product.tsx, hero.tsx, home.tsx and the JSX of the three core files). These are presentation only.
- `window.scrollTo` after a contact success (contact.tsx:82) and the DOM work of the download link (lead-magnet.tsx:58-63). The download is recorded as one `Download` event instead.
- Console logging (contact.tsx:51-55, 70, 79, 91). It is a side effect only.
- The email grammar of zod's `.email()`. It is library code, so it is the parameter `isEmail`.
- The EmailJS SDK and the network behind `fetch`. They are I/O, so their results are parameters. The EmailJS response value is not used by the code and is not modelled.
- The `new Date().toLocaleString()` timestamp. It depends on the clock and locale, so it is an opaque string parameter.
- The `isSubmitting` button disabling and react-hook-form's re-validation while typing. Both are library-internal form state. `Submit` takes the values typed so far as its argument.
- The toast component itself. A toast is recorded as a (title, description, variant) record.
- Routing between pages and navigation by other means than the bar's links (back button, typed URL). The router is external; only the link clicks are modelled.
- JavaScript strings with lone surrogates. A Dafny `char` is a Unicode scalar value, so such strings cannot be represented.
- The mobile menu's Blog link (navigation.tsx:103-109) and the desktop one (navigation.tsx:59-66). Each opens an external site in a new tab and has no click handler, so it leaves the menu as it is.
- The "Request Free Demo" buttons (navigation.tsx:67-69, 111-113). They have no handler and change no state.
