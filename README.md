# Contact-form pipeline of the Avuncular Group site

The site's only logic is the contact form. This project models its two ends.

- **The server handler.** `POST` on the contact endpoint parses the JSON body and validates four fields with the server schema. It then checks the mail-provider configuration and turns the message's line feeds into `<br />` tags. It composes two messages: a notification to the company inbox and an acknowledgement to the submitter. It makes one call to the provider's send API and maps the outcome to HTTP 200, 400 or 500.
- **The client form controller.** The client schema is checked before the submit callback runs. The callback sets the submitting flag and posts the values. On a 2xx reply it shows a success notification and resets the fields. On any other reply, or a failed fetch, it shows a failure notification that names the inbox and keeps the fields. It always clears the flag. The submit button is disabled while the flag is set.

Modules:

- `Contact` (`contact.dfy`): the submission entity, an abstract JSON value, the client's serialisation (`Encode`) and the object-shape part of the schema (`Decode`).
- `Route` (`route.dfy`): the server handler as a pure function, `Post`. It takes the request body, the environment and the provider's reply, and returns the response, the provider calls made and the log lines written.
- `ContactForm` (`contact_form.dfy`): the client schema and defaults, plus the class `Form`. Its fields are the four values, `isSubmitting`, the notifications shown and the bodies posted.
- `Pipeline` (`pipeline.dfy`): lemmas and a method that connect the two halves.

Two behaviours of the handler are worth stating plainly:

- A body that is not JSON gets 500, not 400. The parse error at `app/api/contact/route.ts:15` is not the validation library's error, and only that error maps to 400 (`app/api/contact/route.ts:77`).
- User text goes into the HTML bodies without escaping (`app/api/contact/route.ts:39-52`). Only the message's line feeds are converted. Name and email go into the HTML as they are, line feeds included.

## Model

| member | source | states |
|---|---|---|
| Contact.Encode | app/components/contact-form.tsx:51 | the posted body is an object with exactly the four keys name, email, subject and message, each holding a string |
| Contact.Decode | app/api/contact/route.ts:6-11 | the object schema's shape check succeeds exactly when the body is an object whose four keys all hold strings; the result carries those four strings |
| Contact.DecodeEncode | app/api/contact/route.ts:15-16 | the server reads back exactly the four values the client serialised |
| Contact.EncodeDecodeStrips | app/api/contact/route.ts:16 | parsing keeps the four known keys and drops every other key of the object |
| Route.ServerAccepts | app/api/contact/route.ts:6-11 | the server schema's constraints hold exactly when name has at least 2 characters, email satisfies the email grammar, subject has at least 2 and message at least 5 |
| Route.ServerParse | app/api/contact/route.ts:16 | `schema.parse` returns a submission exactly when the shape check passes and name has at least 2 characters, email satisfies the email grammar, subject has at least 2 and message at least 5; otherwise it fails with a validation error |
| Route.ServerParseIdempotent | app/api/contact/route.ts:6-11 | validating an already-valid payload again accepts it and gives the same submission |
| Route.LoadConfig | app/api/contact/route.ts:18-23 | configuration is missing exactly when the API key, the API secret or the sender address is unset or empty; otherwise those three are kept, and the sender name is the variable's value, or "Avuncular Group" when the variable is unset |
| Route.EmptyFromNameKept | app/api/contact/route.ts:21 | an empty sender name is kept, not replaced by the default (a nullish fallback, not a falsy one) |
| Route.Sanitize | app/api/contact/route.ts:31 | the sanitised message has no line feed, equals the input when the input has none, and is never shorter |
| Route.SanitizeIdempotent | app/api/contact/route.ts:31 | sanitising twice gives the same text as sanitising once |
| Route.SanitizeConcat | app/api/contact/route.ts:31 | the replacement is global and character-wise: sanitising a concatenation concatenates the sanitised parts |
| Route.SanitizeLength | app/api/contact/route.ts:31 | each line feed adds exactly five characters, and nothing else changes the length |
| Route.SanitizeConflatesTypedTags | app/api/contact/route.ts:31 | for any text around it, a typed `<br />` and a line feed produce the same HTML, since nothing is escaped |
| Route.NotificationCarriesSubmission | app/api/contact/route.ts:39-42 | the notification body contains the submitter's name, email and sanitised message verbatim (unescaped) |
| Route.AckCarriesSubmission | app/api/contact/route.ts:48-53 | the acknowledgement body contains the submitter's name and sanitised message verbatim (unescaped) |
| Route.Compose | app/api/contact/route.ts:33-56 | the payload has exactly two messages, both from (fromEmail, fromName); the first goes to info@avunculargroup.com / "Avuncular Group" with subject "[Website] " + subject and the notification body, the second to (email, name) with subject "We received your message" and the acknowledgement body; both bodies use the sanitised message |
| Route.ComposeContents | app/api/contact/route.ts:33-56 | exactly two messages, both from (fromEmail, fromName); the first to info@avunculargroup.com / "Avuncular Group" with subject "[Website] " + subject, the second to (email, name) with subject "We received your message"; the bodies carry the user text |
| Route.Caught | app/api/contact/route.ts:75-82 | the catch block logs the error and answers with the generic message, 400 exactly for a validation error and 500 for anything else |
| Route.Deliver | app/api/contact/route.ts:58-74 | one provider call with the API key, the secret and the two composed messages; 200 `{ok: true}` exactly on a 2xx reply; otherwise 500 with the generic message; a non-2xx reply is logged with its status and text |
| Route.Post | app/api/contact/route.ts:13-83 | 400 exactly on a validation failure, checked before configuration, with no provider call; a non-JSON body is 500; a valid body with missing configuration is 500 "Email configuration missing" with no call; the provider is called at most once, and exactly when the body is valid and configured; 200 `{ok: true}` exactly when that call got a 2xx reply; every other status is 400 or 500 with an error body |
| Route.ExampleDelivered | app/api/contact/route.ts:33-74 | the delivered scenario ("Jo Lee", "jo@example.com", "Hi", "Hello there") gets 200 and sends two messages, to the inbox under "[Website] Hi" and to jo@example.com |
| Route.ExampleRejected | app/api/contact/route.ts:75-80 | the rejected scenario ("A", "not-an-email", "", "") gets 400 with the generic message and no provider call, whatever the configuration |
| ContactForm.ClientAccepts | app/components/contact-form.tsx:20-25 | the client schema's constraints hold exactly when name has at least 2 characters, email satisfies the email grammar, subject has at least 3 and message at least 10 |
| ContactForm.DefaultsRejected | app/components/contact-form.tsx:35-40 | the empty default values fail the client schema, so an untouched or reset form never posts |
| ContactForm.FailedToastNamesInbox | app/components/contact-form.tsx:63-69 | the failure notification is the destructive variant and names info@avunculargroup.com |
| ContactForm.Form.constructor | app/components/contact-form.tsx:31-41 | the form starts with the four fields empty and not submitting |
| ContactForm.Form.SubmitDisabled | app/components/contact-form.tsx:155 | the submit button is disabled exactly while `isSubmitting` holds |
| ContactForm.Form.Edit | app/components/contact-form.tsx:78-150 | typing changes only the edited field, even while a submission is in flight |
| ContactForm.Form.Press | app/components/contact-form.tsx:43-52 | the callback starts exactly when the button is enabled and the values pass the client schema (name ≥ 2, email, subject ≥ 3, message ≥ 10); it then sets `isSubmitting`, so the button is disabled while the post is in flight, and posts the JSON of the values; otherwise nothing changes |
| ContactForm.Form.Settle | app/components/contact-form.tsx:54-72 | after the fetch, `isSubmitting` is cleared; on a 2xx reply the success notification is shown and the fields reset to empty; on a non-2xx reply or a thrown fetch the failure notification is shown and the fields are kept |
| ContactForm.Form.Submit | app/components/contact-form.tsx:43-73 | a whole submission that starts exactly when the button is enabled and the values pass the client schema; afterwards `isSubmitting` is cleared and the button enabled, the values have been posted, the fields are reset and the success notification shown exactly on a 2xx outcome, and otherwise the fields are kept and the failure notification shown |
| Pipeline.ClientValidIsServerValid | app/components/contact-form.tsx:20-25 | every payload the client schema accepts passes the server schema, and the server parses it back to the same values |
| Pipeline.ServerLooserThanClient | app/api/contact/route.ts:6-11 | the converse fails: the server accepts a 2-character subject and a 5-character message that the client refuses |
| Pipeline.ClientPostOutcome | app/components/contact-form.tsx:46-56 | a post from the form never gets 400; without configuration it gets the configuration error, and with configuration it causes exactly one provider call with the form's values and gets a 2xx answer exactly when the provider does |
| Pipeline.RoundTrip | app/components/contact-form.tsx:43-73 | form and handler together: the fields are reset and the success notification shown exactly when the values were valid, configuration was present and the provider accepted the batch; otherwise the fields are kept and the failure notification shown; when the form does not submit, nothing changes |

## Left out

- The email-address grammar of the validation library is not visible. Both schemas take it as the same uninterpreted parameter `isEmail`.
- String lengths count Dafny characters (Unicode scalar values). JavaScript counts UTF-16 code units, so the two differ for characters outside the Basic Multilingual Plane.
- JSON text is not modelled. A body is either malformed or a parsed abstract JSON value. `JSON.stringify` on the client followed by `request.json()` on the server is taken to give `Encode(values)`.
- The HTTP Basic `Authorization` header (base64 of `key:secret`, RFC 7617 section 2, RFC 4648 section 4) is not modelled. The provider call records the key and secret it is built from.
- The HTML bodies are the code's fixed fragments around the user text. The template literals' whitespace and indentation are left out.
- `NextResponse.json` serialisation is not modelled. A response is a status and an abstract body.
- The handler's three `console.error` calls are modelled as a list of log entries. The error objects' text and the console format are left out.
- The client's `console.error(error)` in the submit callback (`app/components/contact-form.tsx:64`) is not modelled. `Form` keeps no log.
- Route.Deliver: if `response.text()` itself throws on the provider-error path, the code still answers the same generic 500 but does not log the provider line. The model assumes the text is read.
- The network calls (to the provider and to the contact endpoint) are parameters: a status with text, or a thrown fetch. Timeouts, client disconnects and re-reading the environment are left out.
- Rendering is left out: the inline per-field error messages, the button label and the toasts' display. Notifications are recorded as a list of the toasts shown.
- The form library's internals are left out. Its validation before the callback is treated as synchronous.
- Static pages, layout, metadata and presentational components carry no logic and are not part of this model.
